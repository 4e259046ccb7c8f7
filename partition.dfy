/**
 * The `results` bookkeeping both sync loops share (event_sync/orchestrator.py and sync_events.py):
 * every sheet event gets one verdict — created, failed or skipped — and its name is appended to
 * the matching list, in sheet order. A sheet event is skipped exactly when its identity key is
 * among the keys of the events already in Wix. Generic over the event type, its name and its key.
 */
module Partition {

  /** Where one sheet event ends up. */
  datatype Verdict = Success | Failure | Skip

  /** `results`: the `success`, `failed` and `skipped` lists. */
  datatype SyncResults = SyncResults(success: seq<string>, failed: seq<string>, skipped: seq<string>)

  /** The names of the events with one verdict, in sheet order. */
  function Select<T>(items: seq<T>, name: T -> string, verdicts: seq<Verdict>, v: Verdict): (r: seq<string>)
    requires |items| == |verdicts|
    ensures |r| <= |items|
  {
    if items == [] then []
    else
      var n := |items| - 1;
      Select(items[..n], name, verdicts[..n], v) + (if verdicts[n] == v then [name(items[n])] else [])
  }

  /** The three lists for events with their verdicts. */
  function ResultsOf<T>(items: seq<T>, name: T -> string, verdicts: seq<Verdict>): SyncResults
    requires |items| == |verdicts|
  {
    SyncResults(Select(items, name, verdicts, Success), Select(items, name, verdicts, Failure),
                Select(items, name, verdicts, Skip))
  }

  /** Every event lands in exactly one of the three lists. */
  lemma {:induction false} PartitionSizes<T>(items: seq<T>, name: T -> string, verdicts: seq<Verdict>)
    requires |items| == |verdicts|
    ensures var r := ResultsOf(items, name, verdicts);
      |r.success| + |r.failed| + |r.skipped| == |items|
  {
    if items != [] {
      var n := |items| - 1;
      PartitionSizes(items[..n], name, verdicts[..n]);
    }
  }

  /** A list is empty exactly when no event has its verdict. */
  lemma {:induction false} SelectEmptyIff<T>(items: seq<T>, name: T -> string, verdicts: seq<Verdict>, v: Verdict)
    requires |items| == |verdicts|
    ensures Select(items, name, verdicts, v) == [] <==> v !in verdicts
  {
    if items != [] {
      var n := |items| - 1;
      SelectEmptyIff(items[..n], name, verdicts[..n], v);
      assert verdicts == verdicts[..n] + [verdicts[n]];
      assert (v in verdicts) <==> (v in verdicts[..n] || verdicts[n] == v);
    }
  }

  /** A name is in a list exactly when an event of that name has the list's verdict. */
  lemma {:induction false} SelectMembers<T>(items: seq<T>, name: T -> string, verdicts: seq<Verdict>, v: Verdict,
                                            x: string)
    requires |items| == |verdicts|
    ensures x in Select(items, name, verdicts, v) <==>
      exists i :: 0 <= i < |items| && verdicts[i] == v && name(items[i]) == x
  {
    if items != [] {
      var n := |items| - 1;
      SelectMembers(items[..n], name, verdicts[..n], v, x);
      if exists i :: 0 <= i < n && verdicts[..n][i] == v && name(items[..n][i]) == x {
        var i :| 0 <= i < n && verdicts[..n][i] == v && name(items[..n][i]) == x;
        assert verdicts[i] == v && name(items[i]) == x;
      }
      if exists i :: 0 <= i < |items| && verdicts[i] == v && name(items[i]) == x {
        var i :| 0 <= i < |items| && verdicts[i] == v && name(items[i]) == x;
        if i < n {
          assert verdicts[..n][i] == v && name(items[..n][i]) == x;
        }
      }
    }
  }

  /** A list of one more event: that event's name is appended when it has the list's verdict. */
  lemma SelectSnoc<T>(items: seq<T>, name: T -> string, i: nat, verdicts: seq<Verdict>, v: Verdict, w: Verdict)
    requires i < |items| && |verdicts| == i
    ensures Select(items[..i + 1], name, verdicts + [v], w) ==
      Select(items[..i], name, verdicts, w) + (if v == w then [name(items[i])] else [])
  {
    assert items[..i + 1][..i] == items[..i];
    assert (verdicts + [v])[..i] == verdicts;
  }

  /** Each event is skipped exactly when its key is known (stated event by event from the back). */
  predicate SkipsMatch<T>(items: seq<T>, key: T -> string, verdicts: seq<Verdict>, keys: set<string>)
    requires |items| == |verdicts|
  {
    items == [] ||
      var n := |items| - 1;
      SkipsMatch(items[..n], key, verdicts[..n], keys) && (verdicts[n] == Skip <==> key(items[n]) in keys)
  }

  /** The recursive statement, event by event. */
  lemma {:induction false} SkipsMatchAll<T>(items: seq<T>, key: T -> string, verdicts: seq<Verdict>, keys: set<string>)
    requires |items| == |verdicts| && SkipsMatch(items, key, verdicts, keys)
    ensures forall i :: 0 <= i < |items| ==> (verdicts[i] == Skip <==> key(items[i]) in keys)
  {
    if items != [] {
      var n := |items| - 1;
      SkipsMatchAll(items[..n], key, verdicts[..n], keys);
      assert forall i :: 0 <= i < n ==> items[..n][i] == items[i] && verdicts[..n][i] == verdicts[i];
    }
  }

  /**
   * `results[...].append(event.name)`: the verdict of the i-th event is recorded in its list; a
   * skip is recorded exactly for a known key.
   */
  method Record<T>(items: seq<T>, name: T -> string, key: T -> string, i: nat, keys: set<string>,
                   verdicts: seq<Verdict>, results: SyncResults, v: Verdict)
    returns (verdicts': seq<Verdict>, results': SyncResults)
    requires i < |items| && |verdicts| == i && results == ResultsOf(items[..i], name, verdicts)
    requires SkipsMatch(items[..i], key, verdicts, keys) && (v == Skip <==> key(items[i]) in keys)
    ensures verdicts' == verdicts + [v]
    ensures results' == ResultsOf(items[..i + 1], name, verdicts')
    ensures SkipsMatch(items[..i + 1], key, verdicts', keys)
    ensures |results'.skipped| == |results.skipped| + (if v == Skip then 1 else 0)
  {
    SelectSnoc(items, name, i, verdicts, v, Success);
    SelectSnoc(items, name, i, verdicts, v, Failure);
    SelectSnoc(items, name, i, verdicts, v, Skip);
    verdicts' := verdicts + [v];
    assert items[..i + 1][..i] == items[..i] && verdicts'[..i] == verdicts;
    var x := name(items[i]);
    match v
    case Success => results' := results.(success := results.success + [x]);
    case Failure => results' := results.(failed := results.failed + [x]);
    case Skip => results' := results.(skipped := results.skipped + [x]);
  }
}
