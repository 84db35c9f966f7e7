/**
 Replay history of the parity tool (tools/milan-parity/milan_parity_validate.py):
 what the validation of the records and the chronology check establish, and why
 rebuilding an operation's prelude afterwards cannot go wrong.
 */
module Chronology {
  import opened Common

  /** One runtime record, as far as replay looks at it. */
  datatype Record = Record(
    session: string,
    chronology: int,
    action: string,
    epoch: int,
    generation: nat,
    setup: string,
    use: int,
    cancelled: Flag,
    status: int,
    live: Option<string>,
    purpose: nat)

  // -------------------------------------------------- Sorting and selecting

  predicate Ordered(s: seq<Record>) {
    forall i, j | 0 <= i < j < |s| :: s[i].chronology <= s[j].chronology
  }

  /** Insert behind everything that does not come later. */
  function Insert(s: seq<Record>, r: Record): (t: seq<Record>)
    ensures |t| == |s| + 1
    decreases |s|
  {
    if s == [] || s[|s| - 1].chronology <= r.chronology then s + [r]
    else Insert(s[..|s| - 1], r) + [s[|s| - 1]]
  }

  /** A stable sort by chronology. */
  function Sort(s: seq<Record>): (t: seq<Record>)
    ensures |t| == |s|
    decreases |s|
  {
    if s == [] then [] else Insert(Sort(s[..|s| - 1]), s[|s| - 1])
  }

  function Filter(s: seq<Record>, p: Record -> bool): seq<Record>
    decreases |s|
  {
    if s == [] then []
    else Filter(s[..|s| - 1], p) + if p(s[|s| - 1]) then [s[|s| - 1]] else []
  }

  lemma AppendOrdered(s: seq<Record>, r: Record)
    requires Ordered(s) && forall x | x in s :: x.chronology <= r.chronology
    ensures Ordered(s + [r])
  {
  }

  lemma LastIsLatest(s: seq<Record>)
    requires Ordered(s) && s != []
    ensures Ordered(s[..|s| - 1]) && forall x | x in s :: x.chronology <= s[|s| - 1].chronology
  {
  }

  lemma {:induction false} InsertHolds(s: seq<Record>, r: Record)
    ensures multiset(Insert(s, r)) == multiset(s) + multiset{r}
    ensures forall x :: x in Insert(s, r) <==> x in s || x == r
    decreases |s|
  {
    if s != [] && s[|s| - 1].chronology > r.chronology {
      InsertHolds(s[..|s| - 1], r);
      assert s == s[..|s| - 1] + [s[|s| - 1]];
    }
  }

  lemma {:induction false} InsertOrdered(s: seq<Record>, r: Record)
    requires Ordered(s)
    ensures Ordered(Insert(s, r))
    decreases |s|
  {
    hide Ordered;
    if s == [] {
      AppendOrdered(s, r);
    } else {
      var rest, last := s[..|s| - 1], s[|s| - 1];
      LastIsLatest(s);
      if last.chronology <= r.chronology {
        AppendOrdered(s, r);
      } else {
        InsertOrdered(rest, r);
        InsertHolds(rest, r);
        AppendOrdered(Insert(rest, r), last);
      }
    }
  }

  lemma {:induction false} SortOrdered(s: seq<Record>)
    ensures Ordered(Sort(s)) && multiset(Sort(s)) == multiset(s)
    decreases |s|
  {
    if s != [] {
      SortOrdered(s[..|s| - 1]);
      InsertOrdered(Sort(s[..|s| - 1]), s[|s| - 1]);
      InsertHolds(Sort(s[..|s| - 1]), s[|s| - 1]);
      assert s == s[..|s| - 1] + [s[|s| - 1]];
    }
  }

  lemma {:induction false} FilterHolds(s: seq<Record>, p: Record -> bool)
    ensures forall r :: r in Filter(s, p) <==> r in s && p(r)
    decreases |s|
  {
    if s != [] {
      FilterHolds(s[..|s| - 1], p);
      assert s == s[..|s| - 1] + [s[|s| - 1]];
    }
  }

  lemma FilterAppend(s: seq<Record>, r: Record, p: Record -> bool)
    ensures Filter(s + [r], p) == if p(r) then Filter(s, p) + [r] else Filter(s, p)
  {
    assert (s + [r])[..|s|] == s;
  }

  lemma InsertLast(s: seq<Record>, r: Record)
    requires forall x | x in s :: x.chronology <= r.chronology
    ensures Insert(s, r) == s + [r]
  {
    if s != [] { assert s[|s| - 1] in s; }
  }

  lemma InsertBefore(s: seq<Record>, last: Record, r: Record)
    requires last.chronology > r.chronology
    ensures Insert(s + [last], r) == Insert(s, r) + [last]
  {
    assert (s + [last])[..|s|] == s;
  }

  lemma {:induction false} FilterInsert(s: seq<Record>, r: Record, p: Record -> bool)
    requires Ordered(s)
    ensures Filter(Insert(s, r), p) == if p(r) then Insert(Filter(s, p), r) else Filter(s, p)
    decreases |s|
  {
    hide Filter, Insert;
    if s == [] {
      InsertLast(s, r);
      FilterAppend(s, r, p);
      FilterHolds(s, p);
      InsertLast(Filter(s, p), r);
    } else {
      var rest, last := s[..|s| - 1], s[|s| - 1];
      LastIsLatest(s);
      assert s == rest + [last];
      FilterAppend(rest, last, p);
      if last.chronology <= r.chronology {
        InsertLast(s, r);
        FilterAppend(s, r, p);
        FilterHolds(s, p);
        InsertLast(Filter(s, p), r);
      } else {
        FilterInsert(rest, r, p);
        InsertBefore(rest, last, r);
        FilterAppend(Insert(rest, r), last, p);
        if p(last) { InsertBefore(Filter(rest, p), last, r); }
      }
    }
  }

  lemma SortAppend(s: seq<Record>, r: Record)
    ensures Sort(s + [r]) == Insert(Sort(s), r)
  {
    assert (s + [r])[..|s|] == s;
  }

  /** A stable sort and a selection can be done in either order. */
  lemma {:induction false} FilterSort(s: seq<Record>, p: Record -> bool)
    ensures Filter(Sort(s), p) == Sort(Filter(s, p))
    decreases |s|
  {
    if s != [] {
      var rest, last := s[..|s| - 1], s[|s| - 1];
      assert s == rest + [last];
      FilterSort(rest, p);
      SortOrdered(rest);
      hide Filter, Sort, Insert;
      SortAppend(rest, last);
      FilterInsert(Sort(rest), last, p);
      FilterAppend(rest, last, p);
      if p(last) { SortAppend(Filter(rest, p), last); }
    }
  }

  lemma {:induction false} FilterTwice(s: seq<Record>, p: Record -> bool, q: Record -> bool, both: Record -> bool)
    requires forall r :: both(r) <==> p(r) && q(r)
    ensures Filter(Filter(s, p), q) == Filter(s, both)
    decreases |s|
  {
    if s != [] {
      var rest, last := s[..|s| - 1], s[|s| - 1];
      assert s == rest + [last];
      FilterTwice(rest, p, q, both);
      FilterAppend(rest, last, p);
      FilterAppend(rest, last, both);
      FilterAppend(Filter(rest, p), last, q);
    }
  }

  // --------------------------------------------------------- The validation

  predicate SameKey(a: Record, b: Record) {
    a.generation == b.generation && a.setup == b.setup
  }

  /** Uses of a generation and setup so far. */
  function Count(s: seq<Record>, like: Record): nat
    decreases |s|
  {
    if s == [] then 0 else Count(s[..|s| - 1], like) + if SameKey(s[|s| - 1], like) then 1 else 0
  }

  /** The latest epoch of an action so far, or zero. */
  function LastEpoch(s: seq<Record>, action: string): int
    decreases |s|
  {
    if s == [] then 0
    else if s[|s| - 1].action == action then s[|s| - 1].epoch
    else LastEpoch(s[..|s| - 1], action)
  }

  /** What a session's next record must look like. */
  predicate Follows(s: seq<Record>, r: Record) {
    && r.chronology == |s| + 1
    && r.epoch >= LastEpoch(s, r.action)
    && (forall q | q in s && q.generation == r.generation :: q.setup == r.setup)
    && r.use == Count(s, r) + 1
  }

  predicate SessionOk(s: seq<Record>)
    decreases |s|
  {
    s == [] || (SessionOk(s[..|s| - 1]) && Follows(s[..|s| - 1], s[|s| - 1]))
  }

  function InSession(session: string): Record -> bool {
    (r: Record) => r.session == session
  }

  /** _chronology accepts: every session, in order, follows the rules. */
  ghost predicate Accepted(records: seq<Record>) {
    forall r | r in records :: SessionOk(Sort(Filter(records, InSession(r.session))))
  }

  // ------------------------------------------------------------- The replay

  /** _preprocess_state_committed. */
  predicate Committed(r: Record) {
    r.cancelled.Off? && r.status in {0, 0x80, 0x29AA, 0x29BB, 0x7531, 0xC351}
  }

  datatype Replay = Frames(frames: seq<(string, nat)>) | Incomplete | LacksFrame

  function EarlierThan(r: Record): Record -> bool {
    (q: Record) => q.session == r.session && q.chronology < r.chronology
  }

  /** The walk back through the session: `kept` is what it collected, latest first. */
  function Walk(earlier: seq<Record>, current: Record, remaining: int, kept: seq<(string, nat)>): Replay
    decreases |earlier|
  {
    if earlier == [] then Incomplete
    else
      var rest, prior := earlier[..|earlier| - 1], earlier[|earlier| - 1];
      if !SameKey(prior, current) then Walk(rest, current, remaining, kept)
      else if prior.use != remaining then Incomplete
      else if Committed(prior) && prior.live.None? then LacksFrame
      else
        var more := if Committed(prior) then [(prior.live.value, prior.purpose)] + kept else kept;
        if remaining == 1 then Frames(more) else Walk(rest, current, remaining - 1, more)
  }

  /** _prelude. */
  function Prelude(records: seq<Record>, current: Record): Replay {
    if current.use == 1 then Frames([])
    else Walk(Sort(Filter(records, EarlierThan(current))), current, current.use - 1, [])
  }

  /** The earlier committed frames of the same session, generation and setup. */
  function Replays(r: Record): Record -> bool {
    (q: Record) => q.session == r.session && q.chronology < r.chronology && SameKey(q, r) && Committed(q)
  }

  function FramesOf(s: seq<Record>): seq<(string, nat)>
    requires forall r | r in s :: r.live.Some?
    decreases |s|
  {
    if s == [] then []
    else
      assert s[|s| - 1] in s;
      FramesOf(s[..|s| - 1]) + [(s[|s| - 1].live.value, s[|s| - 1].purpose)]
  }

  // ------------------------------------------------------------ Main results

  function KeyCommitted(r: Record): Record -> bool {
    (q: Record) => SameKey(q, r) && Committed(q)
  }

  function Before(c: int): Record -> bool {
    (q: Record) => q.chronology < c
  }

  /** In an accepted session the k-th record is number k + 1. */
  lemma {:induction false} Numbered(s: seq<Record>, k: nat)
    requires SessionOk(s) && k < |s|
    ensures s[k].chronology == k + 1 && SessionOk(s[..k]) && Follows(s[..k], s[k])
    decreases |s|
  {
    var n := |s| - 1;
    if k < n {
      Numbered(s[..n], k);
      assert s[..n][..k] == s[..k];
    }
  }

  /** So the records before number c are exactly the first c - 1. */
  lemma {:induction false} EarlierIsPrefix(s: seq<Record>, c: nat)
    requires SessionOk(s) && 1 <= c <= |s| + 1
    ensures Filter(s, Before(c)) == s[..c - 1]
    decreases |s|
  {
    if s != [] {
      var n := |s| - 1;
      Numbered(s, n);
      if c <= n + 1 {
        EarlierIsPrefix(s[..n], c);
        assert s[..n][..c - 1] == s[..c - 1];
      } else {
        assert c == n + 2;
        forall r | r in s ensures r.chronology < c {
          var k :| 0 <= k < |s| && s[k] == r;
          Numbered(s, k);
        }
        FilterAll(s, Before(c));
      }
    }
  }

  lemma {:induction false} FilterAll(s: seq<Record>, p: Record -> bool)
    requires forall r | r in s :: p(r)
    ensures Filter(s, p) == s
    decreases |s|
  {
    if s != [] {
      assert s[|s| - 1] in s;
      FilterAll(s[..|s| - 1], p);
    }
  }

  predicate AllLive(s: seq<Record>) {
    forall r | r in s :: r.live.Some?
  }

  /** What the walk comes to: all frames found, or one that lacks its artifact. */
  function Outcome(found: seq<Record>, kept: seq<(string, nat)>): Replay {
    if AllLive(found) then Frames(FramesOf(found) + kept) else LacksFrame
  }

  lemma OutcomeAppend(found: seq<Record>, r: Record, kept: seq<(string, nat)>)
    ensures r.live.Some? ==> Outcome(found + [r], kept) == Outcome(found, [(r.live.value, r.purpose)] + kept)
    ensures r.live.None? ==> Outcome(found + [r], kept) == LacksFrame
  {
    var all := found + [r];
    assert all[..|found|] == found && r in all;
    if AllLive(found) && r.live.Some? {
      assert FramesOf(all) == FramesOf(found) + [(r.live.value, r.purpose)];
      assert FramesOf(all) + kept == FramesOf(found) + ([(r.live.value, r.purpose)] + kept);
    }
  }

  /** Walking back through a valid prefix finds every use in turn. */
  lemma {:induction false} WalkSucceeds(s: seq<Record>, current: Record, kept: seq<(string, nat)>)
    requires SessionOk(s) && Count(s, current) >= 1
    ensures Walk(s, current, Count(s, current), kept) == Outcome(Filter(s, KeyCommitted(current)), kept)
    decreases |s|
  {
    hide Outcome, FramesOf;
    var rest, prior := s[..|s| - 1], s[|s| - 1];
    var p := KeyCommitted(current);
    assert s == rest + [prior];
    FilterAppend(rest, prior, p);
    Numbered(s, |s| - 1);
    if !SameKey(prior, current) {
      WalkSucceeds(rest, current, kept);
    } else {
      SameCount(rest, prior, current);
      OutcomeAppend(Filter(rest, p), prior, kept);
      var more := if Committed(prior) && prior.live.Some? then [(prior.live.value, prior.purpose)] + kept else kept;
      if Count(rest, current) >= 1 {
        WalkSucceeds(rest, current, more);
      } else {
        NothingCounted(rest, current);
        NothingFound(more);
      }
    }
  }

  lemma NothingFound(kept: seq<(string, nat)>)
    ensures Outcome([], kept) == Frames(kept)
  {
    assert [] + kept == kept;
  }

  lemma {:induction false} NothingCounted(s: seq<Record>, current: Record)
    requires Count(s, current) == 0
    ensures Filter(s, KeyCommitted(current)) == []
    decreases |s|
  {
    if s != [] {
      NothingCounted(s[..|s| - 1], current);
      assert s == s[..|s| - 1] + [s[|s| - 1]];
      FilterAppend(s[..|s| - 1], s[|s| - 1], KeyCommitted(current));
    }
  }

  lemma {:induction false} SameCount(s: seq<Record>, a: Record, b: Record)
    requires SameKey(a, b)
    ensures Count(s, a) == Count(s, b)
    decreases |s|
  {
    if s != [] { SameCount(s[..|s| - 1], a, b); }
  }

  /** Of _prelude taken alone: after an accepted chronology it finds exactly the
      earlier committed frames of the session, generation and setup, in order,
      unless one of them lacks its live artifact. */
  lemma PreludeAlone(records: seq<Record>, current: Record)
    requires Accepted(records) && current in records
    ensures var found := Sort(Filter(records, Replays(current)));
      Prelude(records, current) == Outcome(found, [])
  {
    hide Outcome, Walk, Filter, Sort;
    var mine := InSession(current.session);
    var all := Sort(records);
    var s := Filter(all, mine);
    FilterSort(records, mine);
    assert SessionOk(s);
    FilterSort(records, EarlierThan(current));
    FilterSort(records, Replays(current));
    FilterTwice(all, mine, Before(current.chronology), EarlierThan(current));
    FilterTwice(Filter(all, EarlierThan(current)), KeyCommitted(current), KeyCommitted(current), KeyCommitted(current));
    FilterTwice(all, EarlierThan(current), KeyCommitted(current), Replays(current));
    var k := PositionOf(records, current, s);
    Numbered(s, k);
    EarlierIsPrefix(s, k + 1);
    var earlier := s[..k];
    assert Sort(Filter(records, EarlierThan(current))) == earlier;
    assert Sort(Filter(records, Replays(current))) == Filter(earlier, KeyCommitted(current));
    if Count(earlier, current) == 0 {
      NothingCounted(earlier, current);
      NothingFound([]);
    } else {
      WalkSucceeds(earlier, current, []);
    }
  }

  lemma Sorted(records: seq<Record>, r: Record)
    ensures r in Sort(records) <==> r in records
  {
    SortOrdered(records);
    hide Sort;
    assert r in multiset(Sort(records)) <==> r in multiset(records);
  }

  /** Where a record stands in its sorted session. */
  lemma PositionOf(records: seq<Record>, current: Record, s: seq<Record>) returns (k: nat)
    requires current in records && s == Filter(Sort(records), InSession(current.session))
    ensures k < |s| && s[k] == current
  {
    Sorted(records, current);
    hide Sort;
    FilterHolds(Sort(records), InSession(current.session));
    k :| 0 <= k < |s| && s[k] == current;
  }

  // ------------------------------------------------------ Validated records

  /** What a record file says of one artifact; unsound is any failed check of its
      name, size, encoding, digest or file. */
  datatype Descriptor = Absent | Unsound | Sound(path: string)

  /** A record file: what replay reads of it, four of its artifacts, and whether
      every other check of validate_runtime passes. */
  datatype Raw = Raw(
    fields: Record,
    setupFrame: Descriptor,
    liveFrame: Descriptor,
    image: Descriptor,
    probe: Descriptor,
    fits: Flag)

  /** _artifact: an error, nothing, or the path of a sound artifact. */
  function Resolve(d: Descriptor, optional: Flag): Option<Option<string>> {
    match d
    case Absent => if optional.On? then Some(None) else None
    case Unsound => None
    case Sound(path) => Some(Some(path))
  }

  /** validate_runtime with _artifacts: the record with its resolved live frame. */
  function Validated(raw: Raw): Option<Record> {
    var live := Resolve(raw.liveFrame, Off);
    if Resolve(raw.setupFrame, Off).None? || live.None? || Resolve(raw.image, On).None? || Resolve(raw.probe, On).None?
      || raw.fits.Off?
    then None
    else Some(raw.fields.(live := live.value))
  }

  /** Every record of a dump, or an error for the first that fails. */
  function ValidatedAll(raws: seq<Raw>): Option<seq<Record>>
    decreases |raws|
  {
    if raws == [] then Some([])
    else
      var rest, last := ValidatedAll(raws[..|raws| - 1]), Validated(raws[|raws| - 1]);
      if rest.None? || last.None? then None else Some(rest.value + [last.value])
  }

  lemma {:induction false} ValidatedLive(raws: seq<Raw>)
    requires ValidatedAll(raws).Some?
    ensures AllLive(ValidatedAll(raws).value)
    decreases |raws|
  {
    if raws != [] {
      ValidatedLive(raws[..|raws| - 1]);
    }
  }

  predicate Strictly(s: seq<Record>) {
    forall i, j | 0 <= i < j < |s| :: s[i].chronology < s[j].chronology
  }

  lemma AcceptedStrictly(s: seq<Record>)
    requires SessionOk(s)
    ensures Strictly(s)
  {
    forall k | 0 <= k < |s| ensures s[k].chronology == k + 1 {
      Numbered(s, k);
    }
  }

  /** Only one order of the same records is by chronology when no two agree in it. */
  lemma {:induction false} OneOrder(s: seq<Record>, t: seq<Record>)
    requires Strictly(s) && Ordered(t) && multiset(s) == multiset(t)
    ensures s == t
    decreases |s|
  {
    hide Strictly, Ordered;
    SameLength(s, t);
    if s != [] {
      var n := |s| - 1;
      LastAgrees(s, t);
      LastTaken(s);
      LastTaken(t);
      OneOrder(s[..n], t[..n]);
      SamePieces(s, t);
    }
  }

  lemma SamePieces(s: seq<Record>, t: seq<Record>)
    requires |s| == |t| > 0 && s[..|s| - 1] == t[..|s| - 1] && s[|s| - 1] == t[|s| - 1]
    ensures s == t
  {
    assert s == s[..|s| - 1] + [s[|s| - 1]] && t == t[..|s| - 1] + [t[|s| - 1]];
  }

  lemma LastTaken(s: seq<Record>)
    requires s != []
    ensures multiset(s[..|s| - 1]) == multiset(s) - multiset{s[|s| - 1]}
    ensures Strictly(s) ==> Strictly(s[..|s| - 1])
    ensures Ordered(s) ==> Ordered(s[..|s| - 1])
  {
    assert s == s[..|s| - 1] + [s[|s| - 1]];
  }

  lemma SameLength(s: seq<Record>, t: seq<Record>)
    requires multiset(s) == multiset(t)
    ensures |s| == |t|
  {
    assert |multiset(s)| == |s| && |multiset(t)| == |t|;
  }

  lemma LastAgrees(s: seq<Record>, t: seq<Record>)
    requires Strictly(s) && Ordered(t) && multiset(s) == multiset(t) && |s| == |t| > 0
    ensures s[|s| - 1] == t[|s| - 1]
  {
    var n := |s| - 1;
    assert s[n] in multiset(s) && t[n] in multiset(t);
    assert s[n] in t && t[n] in s;
    var i :| 0 <= i <= n && s[i] == t[n];
    var j :| 0 <= j <= n && t[j] == s[n];
  }

  lemma {:induction false} FilterPermuted(s: seq<Record>, p: Record -> bool, r: Record)
    ensures multiset(Filter(s, p))[r] == if p(r) then multiset(s)[r] else 0
    decreases |s|
  {
    if s != [] {
      var rest, last := s[..|s| - 1], s[|s| - 1];
      assert s == rest + [last];
      FilterAppend(rest, last, p);
      FilterPermuted(rest, p, r);
    }
  }

  /** A selection from the same records in another order, sorted, is the same. */
  lemma SelectionOrder(records: seq<Record>, runs: seq<Record>, p: Record -> bool)
    requires multiset(runs) == multiset(records) && Strictly(Sort(Filter(records, p)))
    ensures Sort(Filter(runs, p)) == Sort(Filter(records, p))
  {
    SortOrdered(Filter(records, p));
    SortOrdered(Filter(runs, p));
    hide Filter, Sort;
    forall r ensures multiset(Filter(runs, p))[r] == multiset(Filter(records, p))[r] {
      FilterPermuted(runs, p, r);
      FilterPermuted(records, p, r);
    }
    assert multiset(Filter(runs, p)) == multiset(Filter(records, p));
    OneOrder(Sort(Filter(records, p)), Sort(Filter(runs, p)));
  }

  lemma StillAccepted(records: seq<Record>, runs: seq<Record>)
    requires Accepted(records) && multiset(runs) == multiset(records)
    ensures Accepted(runs)
  {
    hide Filter, Sort, SessionOk;
    forall r | r in runs ensures SessionOk(Sort(Filter(runs, InSession(r.session)))) {
      assert r in multiset(runs);
      assert r in records;
      AcceptedStrictly(Sort(Filter(records, InSession(r.session))));
      SelectionOrder(records, runs, InSession(r.session));
    }
  }

  /** The replays of a record are part of its session, so they too have one order. */
  lemma ReplaysStrictly(records: seq<Record>, current: Record)
    requires Accepted(records) && current in records
    ensures Strictly(Sort(Filter(records, Replays(current))))
  {
    var mine := InSession(current.session);
    FilterSort(records, mine);
    FilterSort(records, Replays(current));
    FilterTwice(Sort(records), mine, Replays(current), Replays(current));
    AcceptedStrictly(Sort(Filter(records, mine)));
    hide Sort;
    FilterStrictly(Filter(Sort(records), mine), Replays(current));
  }

  lemma {:induction false} FilterStrictly(s: seq<Record>, p: Record -> bool)
    requires Strictly(s)
    ensures Strictly(Filter(s, p))
    decreases |s|
  {
    if s != [] {
      var rest, last := s[..|s| - 1], s[|s| - 1];
      FilterStrictly(rest, p);
      FilterHolds(rest, p);
      var kept := Filter(rest, p);
      forall i | 0 <= i < |kept| ensures kept[i].chronology < last.chronology {
        assert kept[i] in rest;
        var j :| 0 <= j < |rest| && rest[j] == kept[i];
        assert s[j] == rest[j];
      }
    }
  }

  /** Once a dump's records are validated and their chronology accepted, in
      whatever order they are then looked at, the prelude of any of them never
      fails: it is exactly the earlier committed frames of its session, generation
      and setup, in chronological order. */
  lemma PreludeIsExact(raws: seq<Raw>, records: seq<Record>, runs: seq<Record>, current: Record)
    requires ValidatedAll(raws) == Some(records) && Accepted(records)
    requires multiset(runs) == multiset(records) && current in runs
    ensures var found := Sort(Filter(records, Replays(current)));
      AllLive(found) && Prelude(runs, current) == Frames(FramesOf(found))
  {
    hide Prelude, Accepted, FramesOf, ValidatedAll;
    var found := Sort(Filter(records, Replays(current)));
    assert current in multiset(runs);
    ValidatedLive(raws);
    FoundAmong(records, Replays(current));
    StillAccepted(records, runs);
    PreludeAlone(runs, current);
    ReplaysStrictly(records, current);
    SelectionOrder(records, runs, Replays(current));
    assert AllLive(found);
    assert Prelude(runs, current) == Outcome(found, []);
    assert FramesOf(found) + [] == FramesOf(found);
  }

  lemma FoundAmong(records: seq<Record>, p: Record -> bool)
    ensures forall r | r in Sort(Filter(records, p)) :: r in records && p(r)
  {
    FilterHolds(records, p);
    forall r | r in Sort(Filter(records, p)) ensures r in records && p(r) {
      Sorted(Filter(records, p), r);
    }
  }

  // ------------------------------------------------------- As the tool runs it

  function Lookup(m: map<string, int>, k: string): int {
    if k in m then m[k] else 0
  }

  function UsesOf(m: map<(nat, string), nat>, r: Record): nat {
    if (r.generation, r.setup) in m then m[(r.generation, r.setup)] else 0
  }

  ghost predicate TracksEpochs(seen: seq<Record>, epochs: map<string, int>) {
    forall a: string :: Lookup(epochs, a) == LastEpoch(seen, a)
  }

  ghost predicate TracksSetups(seen: seq<Record>, setups: map<nat, string>) {
    && (forall q | q in seen :: q.generation in setups && setups[q.generation] == q.setup)
    && (forall g | g in setups :: exists q | q in seen :: q.generation == g && q.setup == setups[g])
  }

  ghost predicate TracksUses(seen: seq<Record>, uses: map<(nat, string), nat>) {
    forall r: Record :: UsesOf(uses, r) == Count(seen, r)
  }

  /** The three maps describe the records seen so far. */
  ghost predicate Tracks(seen: seq<Record>, epochs: map<string, int>, setups: map<nat, string>, uses: map<(nat, string), nat>) {
    TracksEpochs(seen, epochs) && TracksSetups(seen, setups) && TracksUses(seen, uses)
  }

  /** The checks of one record, as the three maps answer them. */
  lemma Judged(seen: seq<Record>, r: Record, epochs: map<string, int>, setups: map<nat, string>, uses: map<(nat, string), nat>)
    requires TracksEpochs(seen, epochs) && TracksSetups(seen, setups) && TracksUses(seen, uses)
    ensures Follows(seen, r) <==>
      && r.chronology == |seen| + 1 && r.epoch >= Lookup(epochs, r.action)
      && (r.generation in setups ==> setups[r.generation] == r.setup)
      && r.use == UsesOf(uses, r) + 1
  {
    assert Lookup(epochs, r.action) == LastEpoch(seen, r.action) && UsesOf(uses, r) == Count(seen, r);
    hide Lookup, LastEpoch, UsesOf, Count;
  }

  /** One more record: either it breaks the session for good, or the maps follow it. */
  lemma OneMore(items: seq<Record>, i: nat, epochs: map<string, int>, setups: map<nat, string>, uses: map<(nat, string), nat>)
    requires i < |items| && SessionOk(items[..i]) && Tracks(items[..i], epochs, setups, uses)
    ensures var r := items[i];
      if r.chronology == i + 1 && r.epoch >= Lookup(epochs, r.action)
        && (r.generation in setups ==> setups[r.generation] == r.setup) && r.use == UsesOf(uses, r) + 1
      then SessionOk(items[..i + 1])
        && Tracks(items[..i + 1], epochs[r.action := r.epoch],
                  if r.generation in setups then setups else setups[r.generation := r.setup],
                  uses[(r.generation, r.setup) := UsesOf(uses, r) + 1])
      else !SessionOk(items)
  {
    var r, seen := items[i], items[..i];
    Judged(seen, r, epochs, setups, uses);
    hide TracksEpochs, TracksSetups, TracksUses, Follows, Lookup, UsesOf, SessionOk;
    if Follows(seen, r) {
      SessionGrows(items, i);
      EpochsOn(seen, r, epochs);
      SetupsOn(seen, r, setups);
      UsesOn(seen, r, uses);
    } else if SessionOk(items) {
      Numbered(items, i);
    }
  }

  lemma SessionGrows(items: seq<Record>, i: nat)
    requires i < |items| && SessionOk(items[..i]) && Follows(items[..i], items[i])
    ensures items[..i + 1] == items[..i] + [items[i]] && SessionOk(items[..i + 1])
  {
    assert items[..i + 1][..i] == items[..i];
    hide Follows;
  }

  /** One session, its records sorted. */
  method CheckSession(items: seq<Record>) returns (ok: bool)
    ensures ok <==> SessionOk(items)
  {
    var epochs: map<string, int> := map[];
    var setups: map<nat, string> := map[];
    var uses: map<(nat, string), nat> := map[];
    for i := 0 to |items|
      invariant SessionOk(items[..i]) && Tracks(items[..i], epochs, setups, uses)
    {
      var r := items[i];
      hide Tracks, Follows, Lookup, UsesOf, SessionOk;
      OneMore(items, i, epochs, setups, uses);
      if r.chronology != i + 1 { return false; }
      if r.epoch < Lookup(epochs, r.action) { return false; }
      if r.generation in setups && setups[r.generation] != r.setup { return false; }
      if r.use != UsesOf(uses, r) + 1 { return false; }
      epochs := epochs[r.action := r.epoch];
      if r.generation !in setups { setups := setups[r.generation := r.setup]; }
      uses := uses[(r.generation, r.setup) := UsesOf(uses, r) + 1];
    }
    assert items[..|items|] == items;
    ok := true;
  }

  lemma EpochsOn(seen: seq<Record>, r: Record, epochs: map<string, int>)
    requires TracksEpochs(seen, epochs)
    ensures TracksEpochs(seen + [r], epochs[r.action := r.epoch])
  {
    var now := seen + [r];
    assert now[..|seen|] == seen && now[|now| - 1] == r;
    forall a: string ensures Lookup(epochs[r.action := r.epoch], a) == LastEpoch(now, a) {
      assert Lookup(epochs, a) == LastEpoch(seen, a);
    }
  }

  lemma SetupsOn(seen: seq<Record>, r: Record, setups: map<nat, string>)
    requires TracksSetups(seen, setups) && (r.generation in setups ==> setups[r.generation] == r.setup)
    ensures TracksSetups(seen + [r], if r.generation in setups then setups else setups[r.generation := r.setup])
  {
    var now := seen + [r];
    var after := if r.generation in setups then setups else setups[r.generation := r.setup];
    forall g | g in after ensures exists q | q in now :: q.generation == g && q.setup == after[g] {
      if g in setups {
        var q :| q in seen && q.generation == g && q.setup == setups[g];
        assert q in now;
      } else {
        assert r in now;
      }
    }
  }

  lemma UsesOn(seen: seq<Record>, r: Record, uses: map<(nat, string), nat>)
    requires TracksUses(seen, uses)
    ensures TracksUses(seen + [r], uses[(r.generation, r.setup) := UsesOf(uses, r) + 1])
  {
    var now := seen + [r];
    assert now[..|seen|] == seen;
    forall q: Record ensures UsesOf(uses[(r.generation, r.setup) := UsesOf(uses, r) + 1], q) == Count(now, q) {
      if SameKey(r, q) { SameCount(seen, r, q); }
    }
  }

  function Group(groups: map<string, seq<Record>>, session: string): seq<Record> {
    if session in groups then groups[session] else []
  }

  ghost predicate Grouped(records: seq<Record>, groups: map<string, seq<Record>>) {
    forall s: string :: Group(groups, s) == Filter(records, InSession(s)) && (s in groups ==> groups[s] != [])
  }

  /** The list of validated records, as run_validate_dump builds it. */
  method ValidateRecords(raws: seq<Raw>) returns (records: Option<seq<Record>>)
    ensures records == ValidatedAll(raws)
  {
    var done: seq<Record> := [];
    for i := 0 to |raws|
      invariant ValidatedAll(raws[..i]) == Some(done)
    {
      assert raws[..i + 1][..i] == raws[..i];
      var record := Validated(raws[i]);
      if record.None? {
        FirstFailure(raws, i + 1);
        return None;
      }
      done := done + [record.value];
    }
    assert raws[..|raws|] == raws;
    records := Some(done);
  }

  lemma {:induction false} FirstFailure(raws: seq<Raw>, n: nat)
    requires n <= |raws| && ValidatedAll(raws[..n]).None?
    ensures ValidatedAll(raws).None?
    decreases |raws|
  {
    if n < |raws| {
      assert raws[..|raws| - 1][..n] == raws[..n];
      FirstFailure(raws[..|raws| - 1], n);
    } else {
      assert raws[..n] == raws;
    }
  }

  /** setdefault(session, []).append(record), record by record. */
  method GroupBySession(records: seq<Record>) returns (groups: map<string, seq<Record>>)
    ensures Grouped(records, groups)
  {
    groups := map[];
    for i := 0 to |records|
      invariant Grouped(records[..i], groups)
    {
      var r := records[i];
      assert records[..i + 1] == records[..i] + [r];
      GroupsOn(records[..i], r, groups);
      groups := groups[r.session := Group(groups, r.session) + [r]];
    }
    assert records[..|records|] == records;
  }

  lemma GroupsOn(records: seq<Record>, r: Record, groups: map<string, seq<Record>>)
    requires Grouped(records, groups)
    ensures Grouped(records + [r], groups[r.session := Group(groups, r.session) + [r]])
  {
    hide Filter;
    var after := groups[r.session := Group(groups, r.session) + [r]];
    forall s: string ensures Group(after, s) == Filter(records + [r], InSession(s)) && (s in after ==> after[s] != []) {
      FilterAppend(records, r, InSession(s));
    }
  }

  /** _chronology: group by session, sort, check. */
  method CheckChronology(records: seq<Record>) returns (ok: bool)
    ensures ok <==> Accepted(records)
  {
    hide Filter, Sort, SessionOk;
    var groups := GroupBySession(records);
    var todo := groups.Keys;
    while todo != {}
      invariant todo <= groups.Keys
      invariant forall s | s in groups.Keys - todo :: SessionOk(Sort(groups[s]))
      decreases todo
    {
      var s :| s in todo;
      var good := CheckSession(Sort(groups[s]));
      if !good {
        FilterHolds(records, InSession(s));
        var r := groups[s][0];
        assert r in groups[s] && groups[s] == Filter(records, InSession(s));
        return false;
      }
      todo := todo - {s};
    }
    forall r | r in records ensures SessionOk(Sort(Filter(records, InSession(r.session)))) {
      FilterHolds(records, InSession(r.session));
      assert r in Group(groups, r.session);
    }
    ok := true;
  }

  /** _prelude. */
  method BuildPrelude(records: seq<Record>, current: Record) returns (replay: Replay)
    ensures replay == Prelude(records, current)
  {
    if current.use == 1 { return Frames([]); }
    var remaining := current.use - 1;
    var earlier := Sort(Filter(records, EarlierThan(current)));
    var kept: seq<(string, nat)> := [];
    var i := |earlier|;
    assert earlier[..i] == earlier;
    while i > 0
      invariant 0 <= i <= |earlier|
      invariant Walk(earlier[..i], current, remaining, kept) == Walk(earlier, current, current.use - 1, [])
    {
      i := i - 1;
      var prior := earlier[i];
      assert earlier[..i + 1][..i] == earlier[..i];
      if SameKey(prior, current) {
        if prior.use != remaining { return Incomplete; }
        if Committed(prior) {
          if prior.live.None? { return LacksFrame; }
          kept := [(prior.live.value, prior.purpose)] + kept;
        }
        remaining := remaining - 1;
        if remaining == 0 { return Frames(kept); }
      }
    }
    replay := Incomplete;
  }
}
