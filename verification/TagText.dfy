/**
 Tag strings: how the shard options print a placement policy, how the controller reads it back, and
 how hosts are matched against a list of tags.
 */
module TagText {
  import opened Numerals

  /** Position of the first `c`, or -1. */
  function IndexOf(s: string, c: char): (i: int)
    ensures -1 <= i < |s|
    ensures i >= 0 ==> s[i] == c
    ensures forall j :: 0 <= j < (if i < 0 then |s| else i) ==> s[j] != c
  {
    if s == "" then -1
    else if s[0] == c then 0
    else
      var rest := IndexOf(s[1..], c);
      if rest < 0 then -1 else rest + 1
  }

  /** Key and value around the first equals sign; one in first position does not count. */
  function ParseTag(tag: string): (string, string) {
    var i := IndexOf(tag, '=');
    if i < 1 then (tag, "") else (tag[..i], tag[i + 1..])
  }

  function FormatTag(k: string, v: string): string {
    k + "=" + v
  }

  predicate MatchTag(src: map<string, string>, tag: string) {
    tag == "" || (ParseTag(tag).0 in src && src[ParseTag(tag).0] == ParseTag(tag).1)
  }

  predicate MatchFilter(src: map<string, string>, tags: seq<string>) {
    forall i :: 0 <= i < |tags| ==> MatchTag(src, tags[i])
  }

  function Split(s: string, c: char): (parts: seq<string>)
    ensures |parts| >= 1
  {
    var i := IndexOf(s, c);
    if i < 0 then [s] else [s[..i]] + Split(s[i + 1..], c)
  }

  function Join(parts: seq<string>, c: char): string {
    if parts == [] then ""
    else if |parts| == 1 then parts[0]
    else parts[0] + [c] + Join(parts[1..], c)
  }

  /******* Numbers *******/

  const INT_MAX: nat := 0x7FFF_FFFF_FFFF_FFFF

  predicate IsInt64(n: int) {
    0 - INT_MAX - 1 <= n <= INT_MAX
  }

  /** An optional sign and at least one decimal digit, within 64 bits. */
  function Atoi(s: string): Option<int> {
    var signed := s != "" && (s[0] == '-' || s[0] == '+');
    var digits := if signed then s[1..] else s;
    if digits == "" || !AllDigits(digits, 10) then None
    else
      var n := if signed && s[0] == '-' then 0 - Value(digits, 10) else Value(digits, 10);
      if IsInt64(n) then Some(n) else None
  }

  function Itoa(n: int): string {
    if n < 0 then "-" + Digits(-n, 10) else Digits(n, 10)
  }

  lemma AtoiUnsigned(digits: string)
    requires digits != "" && AllDigits(digits, 10) && IsInt64(Value(digits, 10))
    ensures Atoi(digits) == Some(Value(digits, 10))
  {
    assert DigitValue(digits[0]) < 10;
  }

  lemma AtoiNegative(digits: string)
    requires digits != "" && AllDigits(digits, 10) && IsInt64(0 - Value(digits, 10))
    ensures Atoi(['-'] + digits) == Some(0 - Value(digits, 10))
  {
    assert (['-'] + digits)[1..] == digits;
  }

  predicate Free(s: string, c: char) {
    forall i :: 0 <= i < |s| ==> s[i] != c
  }

  lemma AtoiItoa(n: int)
    requires IsInt64(n)
    ensures Atoi(Itoa(n)) == Some(n)
    ensures Free(Itoa(n), ';')
  {
    var digits := Digits(if n < 0 then -n else n, 10);
    ValueOfDigits(if n < 0 then -n else n, 10);
    assert Free(digits, ';') by {
      forall i | 0 <= i < |digits| ensures digits[i] != ';' {
        assert DigitValue(digits[i]) < 10;
      }
    }
    if n < 0 {
      AtoiNegative(digits);
      assert Itoa(n) == ['-'] + digits;
    } else {
      AtoiUnsigned(digits);
    }
  }

  /******* Placement policies *******/

  /** A number of replicas and the tags a host must carry to take one. */
  datatype GroupSpec = GroupSpec(count: int, filter: seq<string>)

  function PrintGroup(n: int, tags: seq<string>): string {
    Itoa(n) + ";" + Join(tags, ';')
  }

  function ParseGroup(value: string): Option<GroupSpec> {
    var parts := Split(value, ';');
    match Atoi(parts[0])
    case None => None
    case Some(n) => Some(GroupSpec(n, parts[1..]))
  }

  lemma SplitHead(head: string, rest: string, c: char)
    requires Free(head, c)
    ensures Split(head + [c] + rest, c) == [head] + Split(rest, c)
  {
    var s := head + [c] + rest;
    assert s[|head|] == c;
    assert forall i :: 0 <= i < |head| ==> s[i] == head[i];
    assert IndexOf(s, c) == |head|;
    assert s[..|head|] == head && s[|head| + 1..] == rest;
  }

  lemma {:induction false} SplitJoin(parts: seq<string>, c: char)
    requires parts != [] && forall i :: 0 <= i < |parts| ==> Free(parts[i], c)
    ensures Split(Join(parts, c), c) == parts
  {
    if |parts| > 1 {
      SplitJoin(parts[1..], c);
      SplitHead(parts[0], Join(parts[1..], c), c);
    }
  }

  /** Reading back what an option printed gives the same number and a filter that accepts exactly
      the same hosts, an empty tag list included. */
  lemma PolicyRoundTrip(n: int, tags: seq<string>, src: map<string, string>)
    requires IsInt64(n) && forall i :: 0 <= i < |tags| ==> Free(tags[i], ';')
    ensures var read := ParseGroup(PrintGroup(n, tags));
            && read.Some?
            && read.value.count == n
            && (MatchFilter(src, read.value.filter) <==> MatchFilter(src, tags))
  {
    AtoiItoa(n);
    assert Itoa(n) + ";" == Itoa(n) + [';'];
    SplitHead(Itoa(n), Join(tags, ';'), ';');
    if tags == [] {
      assert Split("", ';') == [""];
    } else {
      SplitJoin(tags, ';');
    }
    assert Split(PrintGroup(n, tags), ';')[1..] == Split(Join(tags, ';'), ';');
  }

  /******* Tag lists *******/

  /** Key and value as a tag list stores them: here an equals sign in first position does count. */
  function ListedTag(tag: string): (string, string) {
    var i := IndexOf(tag, '=');
    if i >= 0 then (tag[..i], tag[i + 1..]) else (tag, "")
  }

  /** The last tag of a key wins. */
  function TagsOfList(tags: seq<string>): map<string, string> {
    if tags == [] then map[]
    else
      var (k, v) := ListedTag(tags[|tags| - 1]);
      TagsOfList(tags[..|tags| - 1])[k := v]
  }

  method TagMapFromList(tags: seq<string>) returns (m: map<string, string>)
    ensures m == TagsOfList(tags)
  {
    m := map[];
    for i := 0 to |tags|
      invariant m == TagsOfList(tags[..i])
    {
      var at := IndexOf(tags[i], '=');
      if at >= 0 {
        m := m[tags[i][..at] := tags[i][at + 1..]];
      } else {
        m := m[tags[i] := ""];
      }
      assert tags[..i + 1][..i] == tags[..i];
    }
    assert tags[..|tags|] == tags;
  }

  lemma {:induction false} ListedKeys(tags: seq<string>)
    ensures forall i :: 0 <= i < |tags| ==> ListedTag(tags[i]).0 in TagsOfList(tags)
    ensures forall k :: k in TagsOfList(tags) ==>
              exists i :: 0 <= i < |tags| && ListedTag(tags[i]) == (k, TagsOfList(tags)[k])
  {
    if tags != [] {
      var front, last := tags[..|tags| - 1], ListedTag(tags[|tags| - 1]);
      ListedKeys(front);
      forall k | k in TagsOfList(tags)
        ensures exists i :: 0 <= i < |tags| && ListedTag(tags[i]) == (k, TagsOfList(tags)[k])
      {
        if k == last.0 {
          assert ListedTag(tags[|tags| - 1]) == (k, TagsOfList(tags)[k]);
        } else {
          var i :| 0 <= i < |front| && ListedTag(front[i]) == (k, TagsOfList(front)[k]);
          assert front[i] == tags[i];
        }
      }
    }
  }

  ghost predicate Consistent(tags: seq<string>) {
    forall i, j :: 0 <= i < |tags| && 0 <= j < |tags| && tags[i] != "" && tags[j] != "" ==>
      (ListedTag(tags[i]).0 == ListedTag(tags[j]).0 ==> ListedTag(tags[i]).1 == ListedTag(tags[j]).1)
  }

  /** Hosts that list their tags match their own list, unless some key gets two values or some tag
      starts with an equals sign, which the two readers split differently. */
  lemma ListMatchesItself(tags: seq<string>)
    ensures MatchFilter(TagsOfList(tags), tags) <==>
            Consistent(tags) && forall i :: 0 <= i < |tags| && tags[i] != "" ==> tags[i][0] != '='
  {
    var m := TagsOfList(tags);
    ListedKeys(tags);
    if MatchFilter(m, tags) {
      forall i | 0 <= i < |tags| && tags[i] != "" ensures tags[i][0] != '=' {
        assert MatchTag(m, tags[i]);
        if tags[i][0] == '=' {
          KeysHaveNoEquals(tags, tags[i]);
        }
      }
      forall i | 0 <= i < |tags| && tags[i] != "" ensures ListedTag(tags[i]).1 == m[ListedTag(tags[i]).0] {
        assert MatchTag(m, tags[i]);
      }
    } else {
      var i :| 0 <= i < |tags| && !MatchTag(m, tags[i]);
      var (k, v) := ListedTag(tags[i]);
      var j :| 0 <= j < |tags| && ListedTag(tags[j]) == (k, m[k]);
      if tags[i][0] != '=' {
        assert ParseTag(tags[i]) == (k, v);
        assert tags[j] != "";
      }
    }
  }

  lemma KeysHaveNoEquals(tags: seq<string>, k: string)
    requires k in TagsOfList(tags)
    ensures forall i :: 0 <= i < |k| ==> k[i] != '='
  {
    ListedKeys(tags);
  }

  /** The text of an option. */
  lemma PrintedExample()
    ensures PrintGroup(3, ["a=b", "c"]) == "3;a=b;c" && PrintGroup(10, []) == "10;"
  {
    assert Digits(1, 10) == "1" && Digits(10, 10) == Digits(1, 10) + "0" == "10";
    assert ["a=b", "c"][1..] == ["c"];
    assert Join(["a=b", "c"], ';') == "a=b" + ";" + "c" == "a=b;c";
  }
}
