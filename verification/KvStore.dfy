/**
 The example key-value store. A set names the version it expects to replace, and the version it
 writes is its own log index. That makes retries safe: a set that has taken effect cannot take effect
 again, unless the key was deleted in between.
 */
module KvStore {
  import opened Numerals

  datatype Record = Record(ver: nat, val: string)

  datatype Command = Set(key: string, record: Record) | Del(key: string, ver: nat) | Unknown | Invalid

  const SUCCESS := 1
  const MISMATCH := 2
  const INVALID := 3

  /** The record is sent back with a successful set and with a mismatch. */
  datatype Result = Result(value: nat, record: Option<Record>)

  datatype Entry = Entry(index: nat, cmd: Command, result: Result)

  type Data = map<string, Record>

  /** The key holds another version than the expected one. */
  predicate Mismatch(data: Data, key: string, ver: nat) {
    key in data && data[key].ver != ver
  }

  predicate Sets(data: Data, e: Entry, key: string) {
    e.cmd.Set? && e.cmd.key == key && !Mismatch(data, key, e.cmd.record.ver)
  }

  predicate Deletes(data: Data, e: Entry, key: string) {
    e.cmd.Del? && e.cmd.key == key && (e.cmd.ver == 0 || !Mismatch(data, key, e.cmd.ver))
  }

  function Applied(data: Data, e: Entry): Data {
    match e.cmd
    case Set(key, record) => if Mismatch(data, key, record.ver) then data else data[key := record.(ver := e.index)]
    case Del(key, ver) => if ver > 0 && Mismatch(data, key, ver) then data else data - {key}
    case _ => data
  }

  /** An entry with an unknown operation keeps the result it came with. */
  function Answer(data: Data, e: Entry): Result {
    match e.cmd
    case Set(key, record) =>
      if Mismatch(data, key, record.ver) then Result(MISMATCH, Some(data[key]))
      else Result(SUCCESS, Some(record.(ver := e.index)))
    case Del(key, ver) =>
      if ver > 0 && Mismatch(data, key, ver) then Result(MISMATCH, Some(data[key]))
      else Result(SUCCESS, e.result.record)
    case Unknown => e.result
    case Invalid => Result(INVALID, e.result.record)
  }

  function Run(data: Data, es: seq<Entry>): Data {
    if es == [] then data else Applied(Run(data, es[..|es| - 1]), es[|es| - 1])
  }

  class StateMachine {
    var data: Data

    constructor ()
      ensures data == map[]
    {
      data := map[];
    }

    method UpdateOne(e: Entry) returns (e': Entry)
      modifies this
      ensures data == Applied(old(data), e) && e' == e.(result := Answer(old(data), e))
    {
      e' := e;
      match e.cmd
      case Invalid =>
        e' := e.(result := e.result.(value := INVALID));
      case Set(key, record) =>
        if key in data && data[key].ver != record.ver {
          e' := e.(result := Result(MISMATCH, Some(data[key])));
        } else {
          var stored := record.(ver := e.index);
          data := data[key := stored];
          e' := e.(result := Result(SUCCESS, Some(stored)));
        }
      case Del(key, ver) =>
        if ver > 0 && key in data && data[key].ver != ver {
          e' := e.(result := Result(MISMATCH, Some(data[key])));
        } else {
          e' := e.(result := e.result.(value := SUCCESS));
          data := data - {key};
        }
      case Unknown =>
    }

    /** Apply a batch, writing each result into its entry. */
    method Update(entries: array<Entry>)
      modifies this, entries
      ensures data == Run(old(data), old(entries[..]))
      ensures forall i :: 0 <= i < entries.Length ==>
                entries[i] == old(entries[i]).(result := Answer(Run(old(data), old(entries[..i])), old(entries[i])))
    {
      for i := 0 to entries.Length
        invariant data == Run(old(data), old(entries[..i]))
        invariant forall j :: 0 <= j < i ==>
                    entries[j] == old(entries[j]).(result := Answer(Run(old(data), old(entries[..j])), old(entries[j])))
        invariant forall j :: i <= j < entries.Length ==> entries[j] == old(entries[j])
      {
        ghost var prefix := old(entries[..i + 1]);
        assert prefix[..|prefix| - 1] == old(entries[..i]);
        var e := UpdateOne(entries[i]);
        entries[i] := e;
      }
      assert old(entries[..entries.Length]) == old(entries[..]);
    }
  }

  /******* Logs *******/

  ghost predicate IsLog(es: seq<Entry>, ds: seq<Data>) {
    && |ds| == |es| + 1 && ds[0] == map[]
    && (forall i :: 0 <= i < |es| ==> ds[i + 1] == Applied(ds[i], es[i]))
    && (forall i :: 0 <= i < |es| ==> es[i].index > 0)
    && (forall i, j :: 0 <= i < j < |es| ==> es[i].index < es[j].index)
  }

  /** The key is neither set nor deleted by the entries from `i` to `j`. */
  ghost predicate Untouched(es: seq<Entry>, ds: seq<Data>, i: nat, j: nat, key: string)
    requires |ds| == |es| + 1 && j <= |es|
  {
    forall m :: i <= m < j ==> !Sets(ds[m], es[m], key) && !Deletes(ds[m], es[m], key)
  }

  ghost predicate Undeleted(es: seq<Entry>, ds: seq<Data>, i: nat, j: nat, key: string)
    requires |ds| == |es| + 1 && j <= |es|
  {
    forall m :: i <= m < j ==> !Deletes(ds[m], es[m], key)
  }

  lemma {:induction false} UntouchedSame(es: seq<Entry>, ds: seq<Data>, i: nat, j: nat, key: string)
    requires IsLog(es, ds) && i <= j <= |es| && Untouched(es, ds, i, j, key)
    ensures key in ds[j] <==> key in ds[i]
    ensures key in ds[i] ==> ds[j][key] == ds[i][key]
    decreases j
  {
    if i < j {
      UntouchedSame(es, ds, i, j - 1, key);
      assert ds[j - 1 + 1] == Applied(ds[j - 1], es[j - 1]);
    }
  }

  /** Whatever a key holds was written by the entry that its version names, and not touched since. */
  lemma {:induction false} VersionNamesWriter(es: seq<Entry>, ds: seq<Data>, j: nat, key: string) returns (i: nat)
    requires IsLog(es, ds) && j <= |es| && key in ds[j]
    ensures i < j && Sets(ds[i], es[i], key)
    ensures ds[j][key] == Record(es[i].index, es[i].cmd.record.val)
    ensures Untouched(es, ds, i + 1, j, key)
  {
    var k := j - 1;
    assert ds[k + 1] == Applied(ds[k], es[k]);
    if Sets(ds[k], es[k], key) {
      i := k;
    } else {
      i := VersionNamesWriter(es, ds, k, key);
    }
  }

  /** A set of a key that is present succeeds exactly if it names the entry that last wrote the key:
      no update is lost, and successful sets between deletions form a chain. */
  lemma ChainExactly(es: seq<Entry>, ds: seq<Data>, j: nat, key: string) returns (i: nat)
    requires IsLog(es, ds) && j < |es| && es[j].cmd.Set? && es[j].cmd.key == key && key in ds[j]
    ensures i < j && Sets(ds[i], es[i], key) && Untouched(es, ds, i + 1, j, key)
    ensures Sets(ds[j], es[j], key) <==> es[j].cmd.record.ver == es[i].index
  {
    i := VersionNamesWriter(es, ds, j, key);
  }

  /** While a key is not deleted its version only grows. */
  lemma {:induction false} VersionGrows(es: seq<Entry>, ds: seq<Data>, i: nat, j: nat, key: string)
    requires IsLog(es, ds) && i < j <= |es| && Sets(ds[i], es[i], key) && Undeleted(es, ds, i + 1, j, key)
    ensures key in ds[j] && es[i].index <= ds[j][key].ver
    decreases j
  {
    assert ds[i + 1] == Applied(ds[i], es[i]);
    if i + 1 < j {
      VersionGrows(es, ds, i, j - 1, key);
      assert ds[j - 1 + 1] == Applied(ds[j - 1], es[j - 1]);
    }
  }

  /** A later copy of a successful set is turned down and changes nothing, as long as the set expected
      a version below its own index and the key has not been deleted in between. */
  lemma DuplicateRejected(es: seq<Entry>, ds: seq<Data>, i: nat, j: nat)
    requires IsLog(es, ds) && i < j < |es| && es[i].cmd.Set? && es[j].cmd == es[i].cmd
    requires Sets(ds[i], es[i], es[i].cmd.key) && es[i].cmd.record.ver < es[i].index
    requires Undeleted(es, ds, i + 1, j, es[i].cmd.key)
    ensures ds[j + 1] == ds[j]
    ensures Answer(ds[j], es[j]) == Result(MISMATCH, Some(ds[j][es[i].cmd.key]))
  {
    VersionGrows(es, ds, i, j, es[i].cmd.key);
    assert ds[j + 1] == Applied(ds[j], es[j]);
  }

  /** Over a whole log: a later copy of a successful set that expected a version below its own index
      takes effect if and only if the key is not there at that point. */
  lemma CopyTakesEffectExactly(es: seq<Entry>, ds: seq<Data>, i: nat, j: nat)
    requires IsLog(es, ds) && i < j < |es| && es[i].cmd.Set? && es[j].cmd == es[i].cmd
    requires Sets(ds[i], es[i], es[i].cmd.key) && es[i].cmd.record.ver < es[i].index
    ensures Sets(ds[j], es[j], es[i].cmd.key) <==> es[i].cmd.key !in ds[j]
  {
    var key := es[i].cmd.key;
    if key in ds[j] {
      var w := VersionNamesWriter(es, ds, j, key);
      assert w >= i;
    }
  }

  /** If the key is not there, it has been deleted since. */
  lemma AbsentMeansDeleted(es: seq<Entry>, ds: seq<Data>, i: nat, j: nat, key: string)
    requires IsLog(es, ds) && i < j <= |es| && Sets(ds[i], es[i], key) && key !in ds[j]
    ensures exists m :: i < m < j && Deletes(ds[m], es[m], key)
  {
    if Undeleted(es, ds, i + 1, j, key) {
      VersionGrows(es, ds, i, j, key);
      assert false;
    }
  }

  /** The bound is needed: a set that expects its own index takes effect twice. */
  lemma SetTwice() returns (es: seq<Entry>, ds: seq<Data>)
    ensures |es| == 2 && IsLog(es, ds) && es[0].cmd.Set? && es[1].cmd == es[0].cmd
    ensures es[0].cmd.record.ver == es[0].index
    ensures Sets(ds[0], es[0], es[0].cmd.key) && Sets(ds[1], es[1], es[0].cmd.key) && ds[2] != ds[1]
  {
    var none := Result(0, None);
    var e, copy := Entry(1, Set("k", Record(1, "v")), none), Entry(2, Set("k", Record(1, "v")), none);
    es, ds := [e, copy], [map[], map["k" := Record(1, "v")], map["k" := Record(2, "v")]];
    assert ds[2]["k"] != ds[1]["k"];
  }

  /** The answer tells what the entry did. A set reports the record that the key holds afterwards, with the
      entry's own index as its version if it took effect; a delete that was turned down reports the record
      that is still there. */
  lemma AnswersTell(es: seq<Entry>, ds: seq<Data>, i: nat, key: string)
    requires IsLog(es, ds) && i < |es| && (es[i].cmd.Set? || es[i].cmd.Del?) && es[i].cmd.key == key
    ensures var e, answer, was, now := es[i], Answer(ds[i], es[i]), ds[i], ds[i + 1];
            && (answer.value == 1 || answer.value == 2)
            && (e.cmd.Set? ==>
                  && key in now && answer.record == Some(now[key])
                  && (answer.value == 1 <==> Sets(was, e, key))
                  && (answer.value == 1 ==> now[key] == Record(e.index, e.cmd.record.val))
                  && (answer.value == 2 ==> now == was && was[key].ver != e.cmd.record.ver))
            && (e.cmd.Del? ==>
                  && (answer.value == 1 <==> Deletes(was, e, key))
                  && (answer.value == 1 <==> key !in now)
                  && (answer.value == 2 ==> now == was && answer.record == Some(now[key])))
  {
    assert ds[i + 1] == Applied(ds[i], es[i]);
  }

  /** Anything else changes nothing, and is told so only if it could not be read. */
  lemma OthersTell(es: seq<Entry>, ds: seq<Data>, i: nat)
    requires IsLog(es, ds) && i < |es| && (es[i].cmd.Unknown? || es[i].cmd.Invalid?)
    ensures ds[i + 1] == ds[i]
    ensures Answer(ds[i], es[i]) == if es[i].cmd.Invalid? then es[i].result.(value := 3) else es[i].result
  {
    assert ds[i + 1] == Applied(ds[i], es[i]);
  }
}
