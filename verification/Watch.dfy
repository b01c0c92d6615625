/** The watcher's edge-triggered alarms (src/inference_grid/watch.py): each pass compares the
    alarms there are with the entries it kept, and says only what changed. */
module Watch {
  import opened Wrappers

  datatype Alarm = Alarm(kind: string, key: string, since: Option<real>, detail: string)

  datatype Entry = Entry(kind: string, key: string, since: Option<real>, notifiedAt: real)

  datatype Delta = Cleared(entry: Entry) | Renotified(alarm: Alarm) | Raised(alarm: Alarm)

  const Separator := '\U{1F}'

  function Id(kind: string, key: string): string {
    kind + [Separator] + key
  }

  /** A kind and a key make an identity of their own as long as kinds hold no separator. */
  lemma {:induction false} IdIsInjective(kind: string, key: string, kind': string, key': string)
    requires Separator !in kind && Separator !in kind' && Id(kind, key) == Id(kind', key')
    ensures kind == kind' && key == key'
  {
    assert Id(kind, key)[|kind|] == Separator && Id(kind', key')[|kind'|] == Separator;
    assert forall m :: 0 <= m < |kind| ==> Id(kind, key)[m] == kind[m];
    assert forall m :: 0 <= m < |kind'| ==> Id(kind', key')[m] == kind'[m];
    assert kind == Id(kind, key)[..|kind|] == kind';
    assert key == Id(kind, key)[|kind| + 1..] == key';
  }

  function AlarmId(a: Alarm): string {
    Id(a.kind, a.key)
  }

  function EntryId(e: Entry): string {
    Id(e.kind, e.key)
  }

  function DeltaId(d: Delta): string {
    match d
    case Cleared(e) => EntryId(e)
    case Renotified(a) => AlarmId(a)
    case Raised(a) => AlarmId(a)
  }

  // ----- The dictionary of current alarms ------------------------------------------------

  /** Of two alarms of one identity the later stands. */
  function Current(alarms: seq<Alarm>): (m: map<string, Alarm>)
    ensures forall id :: id in m <==> exists a :: a in alarms && AlarmId(a) == id
    ensures forall id :: id in m ==> m[id] in alarms && AlarmId(m[id]) == id
  {
    if alarms == [] then map[]
    else
      var a := alarms[|alarms| - 1];
      assert alarms == alarms[..|alarms| - 1] + [a];
      Current(alarms[..|alarms| - 1])[AlarmId(a) := a]
  }

  /** The identities in the order of their first alarms. */
  function Order(alarms: seq<Alarm>): (ids: seq<string>)
    ensures forall id :: id in ids <==> id in Current(alarms)
    ensures forall i, j :: 0 <= i < j < |ids| ==> ids[i] != ids[j]
  {
    if alarms == [] then []
    else
      var before, id := Order(alarms[..|alarms| - 1]), AlarmId(alarms[|alarms| - 1]);
      if id in before then before else before + [id]
  }

  // ----- evaluate ------------------------------------------------------------------------

  predicate Due(e: Entry, renotify: real, now: real) {
    now - e.notifiedAt >= renotify
  }

  datatype Review = Review(delta: seq<Delta>, kept: seq<Entry>, left: map<string, Alarm>)

  /** One kept entry against the alarms not matched yet. */
  function Judge(r: Review, e: Entry, renotify: real, now: real): Review {
    var id := EntryId(e);
    if id !in r.left then r.(delta := r.delta + [Cleared(e)])
    else if Due(e, renotify, now)
    then Review(r.delta + [Renotified(r.left[id])], r.kept + [e.(notifiedAt := now)], r.left - {id})
    else r.(kept := r.kept + [e], left := r.left - {id})
  }

  function Sift(state: seq<Entry>, current: map<string, Alarm>, renotify: real, now: real): Review {
    if state == [] then Review([], [], current)
    else Judge(Sift(state[..|state| - 1], current, renotify, now), state[|state| - 1], renotify, now)
  }

  function NewEntry(a: Alarm, now: real): Entry {
    Entry(a.kind, a.key, a.since, now)
  }

  /** The alarms no entry matched are new. */
  function Raise(r: Review, ids: seq<string>, now: real): Review {
    if ids == [] then r
    else
      var before, id := Raise(r, ids[..|ids| - 1], now), ids[|ids| - 1];
      if id !in r.left then before
      else before.(delta := before.delta + [Raised(r.left[id])], kept := before.kept + [NewEntry(r.left[id], now)])
  }

  function Evaluation(alarms: seq<Alarm>, state: seq<Entry>, renotify: real, now: real): Review {
    Raise(Sift(state, Current(alarms), renotify, now), Order(alarms), now)
  }

  method Evaluate(alarms: seq<Alarm>, state: seq<Entry>, renotify: real, now: real)
    returns (delta: seq<Delta>, kept: seq<Entry>)
    ensures delta == Evaluation(alarms, state, renotify, now).delta
    ensures kept == Evaluation(alarms, state, renotify, now).kept
  {
    var current, order := Collect(alarms);
    delta, kept := [], [];
    for n := 0 to |state|
      invariant Review(delta, kept, current) == Sift(state[..n], Current(alarms), renotify, now)
    {
      assert state[..n + 1][..n] == state[..n];
      var entry := state[n];
      var id := EntryId(entry);
      if id !in current {
        delta := delta + [Cleared(entry)];
      } else {
        var alarm := current[id];
        current := current - {id};
        if now - entry.notifiedAt >= renotify {
          delta := delta + [Renotified(alarm)];
          kept := kept + [entry.(notifiedAt := now)];
        } else {
          kept := kept + [entry];
        }
      }
    }
    assert state[..|state|] == state;
    ghost var sifted := Review(delta, kept, current);
    for n := 0 to |order|
      invariant Review(delta, kept, current) == Raise(sifted, order[..n], now)
    {
      assert order[..n + 1][..n] == order[..n];
      if order[n] in current {
        var alarm := current[order[n]];
        delta := delta + [Raised(alarm)];
        kept := kept + [Entry(alarm.kind, alarm.key, alarm.since, now)];
      }
    }
    assert order[..|order|] == order;
  }

  /** The dictionary and its order of insertion. */
  method Collect(alarms: seq<Alarm>) returns (current: map<string, Alarm>, order: seq<string>)
    ensures current == Current(alarms) && order == Order(alarms)
  {
    current, order := map[], [];
    for n := 0 to |alarms|
      invariant current == Current(alarms[..n]) && order == Order(alarms[..n])
    {
      assert alarms[..n + 1][..n] == alarms[..n];
      var id := AlarmId(alarms[n]);
      if id !in current {
        order := order + [id];
      }
      current := current[id := alarms[n]];
    }
    assert alarms[..|alarms|] == alarms;
  }

  // ----- The watcher ---------------------------------------------------------------------

  datatype Pass = Pass(alarms: seq<Alarm>, renotify: real, now: real)

  function StateAfter(state: seq<Entry>, pass: Pass): seq<Entry> {
    Evaluation(pass.alarms, state, pass.renotify, pass.now).kept
  }

  function DeltaAfter(state: seq<Entry>, pass: Pass): seq<Delta> {
    Evaluation(pass.alarms, state, pass.renotify, pass.now).delta
  }

  class Watcher {
    /** The entries of the state file. */
    var entries: seq<Entry>

    constructor ()
      ensures entries == []
    {
      entries := [];
    }

    /** One pass, which writes the state file only when it has something to say: what the file
        holds afterwards is what was kept, written or not. */
    method Watch(pass: Pass) returns (delta: seq<Delta>)
      modifies this
      ensures entries == StateAfter(old(entries), pass)
      ensures delta == DeltaAfter(old(entries), pass)
    {
      var kept;
      delta, kept := Evaluate(pass.alarms, entries, pass.renotify, pass.now);
      SilenceKeeps(pass.alarms, entries, pass.renotify, pass.now);
      if delta != [] {
        entries := kept;
      }
    }
  }

  lemma {:induction false} SiftSilence(state: seq<Entry>, current: map<string, Alarm>, renotify: real, now: real)
    ensures Sift(state, current, renotify, now).delta == [] ==> Sift(state, current, renotify, now).kept == state
  {
    if state != [] {
      SiftSilence(state[..|state| - 1], current, renotify, now);
      assert state == state[..|state| - 1] + [state[|state| - 1]];
    }
  }

  lemma {:induction false} RaiseSilence(r: Review, ids: seq<string>, now: real)
    ensures r.delta <= Raise(r, ids, now).delta
    ensures Raise(r, ids, now).delta == r.delta ==> Raise(r, ids, now).kept == r.kept
  {
    if ids != [] {
      RaiseSilence(r, ids[..|ids| - 1], now);
    }
  }

  /** Nothing to say means nothing to keep anew: the write that is skipped loses nothing. */
  lemma SilenceKeeps(alarms: seq<Alarm>, state: seq<Entry>, renotify: real, now: real)
    ensures Evaluation(alarms, state, renotify, now).delta == [] ==> Evaluation(alarms, state, renotify, now).kept == state
  {
    SiftSilence(state, Current(alarms), renotify, now);
    RaiseSilence(Sift(state, Current(alarms), renotify, now), Order(alarms), now);
  }

  // ----- Following what is said ----------------------------------------------------------

  /** When an alarm that stands was last announced, and the start it named when it was raised. */
  datatype Notice = Notice(at: real, since: Option<real>)

  /** What a listener knows of the alarms standing. */
  type Known = map<string, Notice>

  datatype Said = Said(delta: Delta, renotify: real, at: real)

  /** A listener that takes nothing that does not fit: an alarm is raised only when it does not
      stand, cleared only when it does, and announced again only when it stands and was last
      announced long enough ago. */
  function Hear(known: Known, said: Said): Option<Known> {
    var id := DeltaId(said.delta);
    match said.delta
    case Raised(a) => if id in known then None else Some(known[id := Notice(said.at, a.since)])
    case Cleared(_) => if id in known then Some(known - {id}) else None
    case Renotified(_) =>
      if id in known && said.at - known[id].at >= said.renotify then Some(known[id := known[id].(at := said.at)]) else None
  }

  function Follow(known: Known, log: seq<Said>): Option<Known> {
    if log == [] then Some(known)
    else
      match Follow(known, log[..|log| - 1])
      case None => None
      case Some(k) => Hear(k, log[|log| - 1])
  }

  function Spoken(delta: seq<Delta>, pass: Pass): seq<Said> {
    seq(|delta|, i requires 0 <= i < |delta| => Said(delta[i], pass.renotify, pass.now))
  }

  lemma FollowOne(known: Known, log: seq<Said>, said: Said)
    ensures Follow(known, log + [said]) == match Follow(known, log) case None => None case Some(k) => Hear(k, said)
  {
    assert (log + [said])[..|log|] == log;
  }

  lemma {:induction false} FollowSplit(known: Known, a: seq<Said>, b: seq<Said>)
    requires Follow(known, a).Some?
    ensures Follow(known, a + b) == Follow(Follow(known, a).value, b)
  {
    if b == [] {
      assert a + b == a;
    } else {
      FollowSplit(known, a, b[..|b| - 1]);
      assert (a + b)[..|a + b| - 1] == a + b[..|b| - 1];
    }
  }

  predicate Distinct(state: seq<Entry>) {
    forall i, j :: 0 <= i < j < |state| ==> EntryId(state[i]) != EntryId(state[j])
  }

  predicate Has(state: seq<Entry>, id: string) {
    exists e :: e in state && EntryId(e) == id
  }

  function NoticeOf(e: Entry): Notice {
    Notice(e.notifiedAt, e.since)
  }

  /** The listener knows exactly the entries: when each was announced, and since when it stands. */
  predicate Tells(known: Known, state: seq<Entry>) {
    && (forall e :: e in state ==> EntryId(e) in known && known[EntryId(e)] == NoticeOf(e))
    && (forall id :: id in known ==> Has(state, id))
  }

  // ----- One pass ------------------------------------------------------------------------

  /** Midway through the entries: those judged are as kept, the rest as they were. */
  ghost predicate Midway(known: Known, r: Review, rest: seq<Entry>, current: map<string, Alarm>) {
    && Tells(known, r.kept + rest) && Distinct(r.kept + rest)
    && r.left.Keys <= current.Keys
    && (forall id :: id in r.left ==> r.left[id] == current[id])
    && (forall id :: id in current ==> (id !in r.left <==> Has(r.kept, id)))
    && (forall e :: e in r.kept ==> EntryId(e) in current)
  }

  lemma DistinctMiddle(a: seq<Entry>, e: Entry, b: seq<Entry>, e': Entry)
    requires Distinct(a + [e] + b) && EntryId(e') == EntryId(e)
    ensures Distinct(a + b) && Distinct(a + [e'] + b) && !Has(a, EntryId(e)) && !Has(b, EntryId(e))
  {
    var s := a + [e] + b;
    forall i, j | 0 <= i < j < |a + b| ensures EntryId((a + b)[i]) != EntryId((a + b)[j]) {
      var i', j' := if i < |a| then i else i + 1, if j < |a| then j else j + 1;
      assert s[i'] == (a + b)[i] && s[j'] == (a + b)[j];
    }
    forall i, j | 0 <= i < j < |s| ensures EntryId((a + [e'] + b)[i]) != EntryId((a + [e'] + b)[j]) {
      assert EntryId(s[i]) != EntryId(s[j]);
    }
    forall x | x in a ensures EntryId(x) != EntryId(e) {
      var i :| 0 <= i < |a| && a[i] == x;
      assert s[i] == x && s[|a|] == e;
    }
    forall x | x in b ensures EntryId(x) != EntryId(e) {
      var i :| 0 <= i < |b| && b[i] == x;
      assert s[|a| + 1 + i] == x && s[|a|] == e;
    }
  }

  lemma TellsClear(known: Known, a: seq<Entry>, e: Entry, b: seq<Entry>)
    requires Tells(known, a + [e] + b) && !Has(a, EntryId(e)) && !Has(b, EntryId(e))
    ensures EntryId(e) in known && Tells(known - {EntryId(e)}, a + b)
  {
    assert e in a + [e] + b;
    forall x | x in a + b ensures EntryId(x) in known && EntryId(x) != EntryId(e) && known[EntryId(x)] == NoticeOf(x) {
      assert x in a + [e] + b;
    }
    forall id | id in known && id != EntryId(e) ensures Has(a + b, id) {
      var x :| x in a + [e] + b && EntryId(x) == id;
      assert x in a + b;
    }
  }

  lemma TellsAgain(known: Known, a: seq<Entry>, e: Entry, b: seq<Entry>, now: real)
    requires Tells(known, a + [e] + b) && !Has(a, EntryId(e)) && !Has(b, EntryId(e))
    ensures EntryId(e) in known && known[EntryId(e)] == NoticeOf(e)
    ensures Tells(known[EntryId(e) := Notice(now, e.since)], a + [e.(notifiedAt := now)] + b)
  {
    assert e in a + [e] + b;
    var e' := e.(notifiedAt := now);
    forall x | x in a + [e'] + b
      ensures EntryId(x) in known[EntryId(e) := Notice(now, e.since)] && known[EntryId(e) := Notice(now, e.since)][EntryId(x)] == NoticeOf(x)
    {
      assert x == e' || x in a + [e] + b;
      assert x in a ==> EntryId(x) != EntryId(e);
      assert x in b ==> EntryId(x) != EntryId(e);
    }
    forall id | id in known[EntryId(e) := Notice(now, e.since)] ensures Has(a + [e'] + b, id) {
      if id != EntryId(e) {
        var x :| x in a + [e] + b && EntryId(x) == id;
        assert x in a + [e'] + b;
      } else {
        assert e' in a + [e'] + b;
      }
    }
  }

  lemma ClearHeard(known: Known, r: Review, e: Entry, rest: seq<Entry>, current: map<string, Alarm>, pass: Pass)
    requires Midway(known, r, [e] + rest, current) && EntryId(e) !in r.left
    ensures Hear(known, Said(Cleared(e), pass.renotify, pass.now)) == Some(known - {EntryId(e)})
    ensures Midway(known - {EntryId(e)}, Judge(r, e, pass.renotify, pass.now), rest, current)
  {
    assert r.kept + ([e] + rest) == r.kept + [e] + rest;
    DistinctMiddle(r.kept, e, rest, e);
    TellsClear(known, r.kept, e, rest);
  }

  lemma AgainMidway(known: Known, r: Review, e: Entry, rest: seq<Entry>, current: map<string, Alarm>, now: real, r': Review)
    requires Midway(known, r, [e] + rest, current) && EntryId(e) in r.left
    requires r'.kept == r.kept + [e.(notifiedAt := now)] && r'.left == r.left - {EntryId(e)}
    ensures EntryId(e) in known && known[EntryId(e)] == NoticeOf(e)
    ensures Midway(known[EntryId(e) := Notice(now, e.since)], r', rest, current)
  {
    var e' := e.(notifiedAt := now);
    assert r.kept + ([e] + rest) == r.kept + [e] + rest;
    DistinctMiddle(r.kept, e, rest, e');
    TellsAgain(known, r.kept, e, rest, now);
    KeptOneMore(r, r', e', current);
  }

  lemma JudgedAgain(r: Review, e: Entry, pass: Pass)
    requires EntryId(e) in r.left && Due(e, pass.renotify, pass.now)
    ensures var r' := Judge(r, e, pass.renotify, pass.now);
            r'.kept == r.kept + [e.(notifiedAt := pass.now)] && r'.left == r.left - {EntryId(e)}
  {
  }

  lemma AgainIsHeard(known: Known, a: Alarm, e: Entry, pass: Pass)
    requires AlarmId(a) == EntryId(e) && Due(e, pass.renotify, pass.now)
    requires EntryId(e) in known && known[EntryId(e)] == NoticeOf(e)
    ensures Hear(known, Said(Renotified(a), pass.renotify, pass.now)) == Some(known[EntryId(e) := Notice(pass.now, e.since)])
  {
  }

  lemma AgainHeard(known: Known, r: Review, e: Entry, rest: seq<Entry>, current: map<string, Alarm>, pass: Pass)
    requires Midway(known, r, [e] + rest, current) && EntryId(e) in r.left && Due(e, pass.renotify, pass.now)
    requires AlarmId(r.left[EntryId(e)]) == EntryId(e)
    ensures Hear(known, Said(Renotified(r.left[EntryId(e)]), pass.renotify, pass.now)) == Some(known[EntryId(e) := Notice(pass.now, e.since)])
    ensures Midway(known[EntryId(e) := Notice(pass.now, e.since)], Judge(r, e, pass.renotify, pass.now), rest, current)
  {
    JudgedAgain(r, e, pass);
    AgainMidway(known, r, e, rest, current, pass.now, Judge(r, e, pass.renotify, pass.now));
    AgainIsHeard(known, r.left[EntryId(e)], e, pass);
  }

  lemma KeepUnheard(known: Known, r: Review, e: Entry, rest: seq<Entry>, current: map<string, Alarm>, pass: Pass)
    requires Midway(known, r, [e] + rest, current) && EntryId(e) in r.left && !Due(e, pass.renotify, pass.now)
    ensures Midway(known, Judge(r, e, pass.renotify, pass.now), rest, current)
  {
    assert r.kept + ([e] + rest) == r.kept + [e] + rest;
    KeptOneMore(r, Judge(r, e, pass.renotify, pass.now), e, current);
  }

  lemma SpokenOneMore(delta: seq<Delta>, d: Delta, pass: Pass)
    ensures Spoken(delta + [d], pass) == Spoken(delta, pass) + [Said(d, pass.renotify, pass.now)]
  {
  }

  /** What is said of an entry; nothing, when it is kept in silence. */
  function Remark(r: Review, e: Entry, pass: Pass): Option<Delta> {
    if EntryId(e) !in r.left then Some(Cleared(e))
    else if Due(e, pass.renotify, pass.now) then Some(Renotified(r.left[EntryId(e)]))
    else None
  }

  lemma JudgeSpeaks(r: Review, e: Entry, pass: Pass)
    ensures Judge(r, e, pass.renotify, pass.now).delta ==
            r.delta + match Remark(r, e, pass) case None => [] case Some(d) => [d]
  {
  }

  /** Judging one more entry, what is said of it is heard. */
  lemma RemarkHeard(known: Known, r: Review, e: Entry, rest: seq<Entry>, current: map<string, Alarm>, pass: Pass)
    returns (k: Known)
    requires Midway(known, r, [e] + rest, current)
    requires forall id :: id in current ==> AlarmId(current[id]) == id
    ensures match Remark(r, e, pass)
            case None => k == known
            case Some(d) => Hear(known, Said(d, pass.renotify, pass.now)) == Some(k)
    ensures Midway(k, Judge(r, e, pass.renotify, pass.now), rest, current)
  {
    if EntryId(e) !in r.left {
      ClearHeard(known, r, e, rest, current, pass);
      k := known - {EntryId(e)};
    } else if Due(e, pass.renotify, pass.now) {
      AgainHeard(known, r, e, rest, current, pass);
      k := known[EntryId(e) := Notice(pass.now, e.since)];
    } else {
      KeepUnheard(known, r, e, rest, current, pass);
      k := known;
    }
  }

  /** An entry kept takes its alarm off the ones left. */
  lemma KeptOneMore(r: Review, r': Review, e: Entry, current: map<string, Alarm>)
    requires EntryId(e) in r.left && r'.kept == r.kept + [e] && r'.left == r.left - {EntryId(e)}
    requires r.left.Keys <= current.Keys
    requires forall id :: id in current ==> (id !in r.left <==> Has(r.kept, id))
    requires forall x :: x in r.kept ==> EntryId(x) in current
    ensures forall id :: id in current ==> (id !in r'.left <==> Has(r'.kept, id))
    ensures forall x :: x in r'.kept ==> EntryId(x) in current
  {
    forall id | id in current ensures id !in r'.left <==> Has(r'.kept, id) {
      assert e in r'.kept;
      if Has(r.kept, id) {
        var x :| x in r.kept && EntryId(x) == id;
        assert x in r'.kept;
      }
    }
  }

  lemma {:induction false} SiftHeard(known: Known, done: seq<Entry>, rest: seq<Entry>, current: map<string, Alarm>, pass: Pass)
    returns (k: Known)
    requires Tells(known, done + rest) && Distinct(done + rest)
    requires forall id :: id in current ==> AlarmId(current[id]) == id
    ensures var r := Sift(done, current, pass.renotify, pass.now);
            Follow(known, Spoken(r.delta, pass)) == Some(k) && Midway(k, r, rest, current)
    decreases |done|
  {
    if done == [] {
      return known;
    }
    var n := |done| - 1;
    var e := done[n];
    assert done[..n] + ([e] + rest) == done + rest;
    var k0 := SiftHeard(known, done[..n], [e] + rest, current, pass);
    var r := Sift(done[..n], current, pass.renotify, pass.now);
    k := RemarkHeard(k0, r, e, rest, current, pass);
    JudgeSpeaks(r, e, pass);
    var remark := Remark(r, e, pass);
    if remark.Some? {
      SpokenOneMore(r.delta, remark.value, pass);
      FollowOne(known, Spoken(r.delta, pass), Said(remark.value, pass.renotify, pass.now));
    }
  }

  /** The alarms raised so far are known, the others not yet. */
  ghost predicate Raising(known: Known, kept: seq<Entry>, r: Review, ids: seq<string>, current: map<string, Alarm>) {
    && Tells(known, kept)
    && Distinct(kept)
    && (forall id :: Has(kept, id) <==> Has(r.kept, id) || (id in ids && id in r.left))
  }

  lemma RaisesOneMore(known: Known, kept: seq<Entry>, r: Review, ids: seq<string>, current: map<string, Alarm>,
                      alarm: Alarm, now: real)
    requires Raising(known, kept, r, ids, current)
    requires AlarmId(alarm) in r.left && AlarmId(alarm) !in ids && !Has(r.kept, AlarmId(alarm))
    ensures AlarmId(alarm) !in known
    ensures Raising(known[AlarmId(alarm) := Notice(now, alarm.since)], kept + [NewEntry(alarm, now)], r, ids + [AlarmId(alarm)], current)
  {
    RaiseOne(known, kept, alarm, now);
    HasOneMore(kept, NewEntry(alarm, now));
  }

  lemma {:induction false} RaiseGrows(r: Review, ids: seq<string>, now: real)
    ensures r.delta <= Raise(r, ids, now).delta
  {
    if ids != [] {
      RaiseGrows(r, ids[..|ids| - 1], now);
    }
  }

  /** What is said of the alarms raised. */
  function RaisedSpoken(r: Review, ids: seq<string>, pass: Pass): seq<Said> {
    RaiseGrows(r, ids, pass.now);
    Spoken(Raise(r, ids, pass.now).delta[|r.delta|..], pass)
  }

  lemma RaisedSpokenStep(r: Review, ids: seq<string>, pass: Pass)
    requires ids != []
    ensures var n := |ids| - 1;
            RaisedSpoken(r, ids, pass) == RaisedSpoken(r, ids[..n], pass) +
              if ids[n] in r.left then [Said(Raised(r.left[ids[n]]), pass.renotify, pass.now)] else []
  {
    var n := |ids| - 1;
    RaiseGrows(r, ids[..n], pass.now);
    var before := Raise(r, ids[..n], pass.now).delta;
    if ids[n] in r.left {
      assert (before + [Raised(r.left[ids[n]])])[|r.delta|..] == before[|r.delta|..] + [Raised(r.left[ids[n]])];
      SpokenOneMore(before[|r.delta|..], Raised(r.left[ids[n]]), pass);
    }
  }

  lemma NothingRaised(r: Review, pass: Pass)
    ensures RaisedSpoken(r, [], pass) == [] && Raise(r, [], pass.now) == r
  {
  }

  lemma {:induction false} RaiseHeard(known: Known, r: Review, ids: seq<string>, current: map<string, Alarm>, pass: Pass)
    returns (k: Known)
    requires Midway(known, r, [], current)
    requires forall id :: id in current ==> AlarmId(current[id]) == id
    requires forall i, j :: 0 <= i < j < |ids| ==> ids[i] != ids[j]
    ensures Follow(known, RaisedSpoken(r, ids, pass)) == Some(k)
    ensures Raising(k, Raise(r, ids, pass.now).kept, r, ids, current)
    decreases |ids|
  {
    if ids == [] {
      assert r.kept + [] == r.kept;
      NothingRaised(r, pass);
      return known;
    }
    var n := |ids| - 1;
    var id := ids[n];
    k := RaiseHeard(known, r, ids[..n], current, pass);
    RaisedSpokenStep(r, ids, pass);
    assert ids == ids[..n] + [id];
    if id in r.left {
      RaisesOneMore(k, Raise(r, ids[..n], pass.now).kept, r, ids[..n], current, r.left[id], pass.now);
      FollowOne(known, RaisedSpoken(r, ids[..n], pass), Said(Raised(r.left[id]), pass.renotify, pass.now));
      k := k[id := Notice(pass.now, r.left[id].since)];
    }
  }

  lemma HasOneMore(kept: seq<Entry>, e: Entry)
    ensures forall id :: Has(kept + [e], id) <==> Has(kept, id) || id == EntryId(e)
  {
    forall id ensures Has(kept + [e], id) <==> Has(kept, id) || id == EntryId(e) {
      assert e in kept + [e];
      if Has(kept, id) {
        var x :| x in kept && EntryId(x) == id;
        assert x in kept + [e];
      }
    }
  }

  lemma RaiseOne(known: Known, kept: seq<Entry>, alarm: Alarm, now: real)
    requires Tells(known, kept) && Distinct(kept) && !Has(kept, AlarmId(alarm))
    ensures AlarmId(alarm) !in known
    ensures Tells(known[AlarmId(alarm) := Notice(now, alarm.since)], kept + [NewEntry(alarm, now)]) && Distinct(kept + [NewEntry(alarm, now)])
  {
    var e := NewEntry(alarm, now);
    HasOneMore(kept, e);
    forall i, j | 0 <= i < j < |kept + [e]| ensures EntryId((kept + [e])[i]) != EntryId((kept + [e])[j]) {
      assert (kept + [e])[i] in kept;
    }
    forall x | x in kept + [e]
      ensures EntryId(x) in known[AlarmId(alarm) := Notice(now, alarm.since)] && known[AlarmId(alarm) := Notice(now, alarm.since)][EntryId(x)] == NoticeOf(x)
    {
      assert x == e || x in kept;
    }
  }

  /** One pass: a listener who knew the entries before and takes in what the pass says knows the
      entries after, and they are one for each current alarm. */
  lemma PassHeard(known: Known, state: seq<Entry>, pass: Pass) returns (k: Known)
    requires Tells(known, state) && Distinct(state)
    ensures Follow(known, Spoken(DeltaAfter(state, pass), pass)) == Some(k)
    ensures Tells(k, StateAfter(state, pass)) && Distinct(StateAfter(state, pass))
    ensures k.Keys == Current(pass.alarms).Keys
  {
    var current := Current(pass.alarms);
    var r := Sift(state, current, pass.renotify, pass.now);
    assert state + [] == state;
    var k0 := SiftHeard(known, state, [], current, pass);
    k := RaiseHeard(k0, r, Order(pass.alarms), current, pass);
    RaiseGrows(r, Order(pass.alarms), pass.now);
    var r' := Raise(r, Order(pass.alarms), pass.now);
    SpokenSplit(r.delta, r'.delta, pass);
    FollowSplit(known, Spoken(r.delta, pass), RaisedSpoken(r, Order(pass.alarms), pass));
    KnowsCurrent(k0, k, r, r'.kept, Order(pass.alarms), current);
  }

  lemma SpokenSplit(first: seq<Delta>, all: seq<Delta>, pass: Pass)
    requires first <= all
    ensures Spoken(all, pass) == Spoken(first, pass) + Spoken(all[|first|..], pass)
  {
  }

  lemma KnowsCurrent(known: Known, k: Known, r: Review, kept: seq<Entry>, ids: seq<string>, current: map<string, Alarm>)
    requires Midway(known, r, [], current) && Raising(k, kept, r, ids, current)
    requires forall id :: id in ids <==> id in current
    ensures k.Keys == current.Keys
  {
    forall id ensures id in k <==> id in current {
      assert id in k <==> Has(kept, id);
      assert Has(r.kept, id) ==> id in current;
    }
  }

  // ----- Every run -----------------------------------------------------------------------

  function StateOf(passes: seq<Pass>): seq<Entry> {
    if passes == [] then [] else StateAfter(StateOf(passes[..|passes| - 1]), passes[|passes| - 1])
  }

  /** Everything said during a run. */
  function LogOf(passes: seq<Pass>): seq<Said> {
    if passes == [] then []
    else
      var pass := passes[|passes| - 1];
      LogOf(passes[..|passes| - 1]) + Spoken(DeltaAfter(StateOf(passes[..|passes| - 1]), pass), pass)
  }

  /** Over any run the deltas replay, every one of them fitting, to exactly the alarms of the last
      pass. */
  lemma {:induction false} DeltasReplay(passes: seq<Pass>)
    ensures Follow(map[], LogOf(passes)).Some?
    ensures var k := Follow(map[], LogOf(passes)).value;
            && Tells(k, StateOf(passes)) && Distinct(StateOf(passes))
            && k.Keys == if passes == [] then {} else Current(passes[|passes| - 1].alarms).Keys
  {
    if passes != [] {
      var n := |passes| - 1;
      DeltasReplay(passes[..n]);
      var known := Follow(map[], LogOf(passes[..n])).value;
      var k := PassHeard(known, StateOf(passes[..n]), passes[n]);
      FollowSplit(map[], LogOf(passes[..n]), Spoken(DeltaAfter(StateOf(passes[..n]), passes[n]), passes[n]));
    }
  }

  predicate About(said: Said, id: string) {
    DeltaId(said.delta) == id
  }

  predicate Edge(said: Said, id: string) {
    About(said, id) && !said.delta.Renotified?
  }

  lemma {:induction false} FollowPrefix(known: Known, log: seq<Said>, n: nat)
    requires n <= |log| && Follow(known, log).Some?
    ensures Follow(known, log[..n]).Some?
    decreases |log|
  {
    if n == |log| {
      assert log[..n] == log;
    } else {
      FollowPrefix(known, log[..|log| - 1], n);
      assert log[..|log| - 1][..n] == log[..n];
    }
  }

  lemma EdgesAlternate(known: Known, log: seq<Said>, i: nat, j: nat, id: string)
    requires Follow(known, log).Some? && i < j < |log| && Edge(log[i], id) && Edge(log[j], id)
    requires forall m :: i < m < j ==> !Edge(log[m], id)
    ensures log[i].delta.Raised? <==> log[j].delta.Cleared?
  {
    StandsAfter(known, log, i, j, id);
    NextFits(known, log, j);
    HearingEdge(Follow(known, log[..j]).value, log[j], id);
  }

  /** Over any run, between two raises of an alarm it is cleared, and between two clearings raised. */
  lemma RaisedAndClearedAlternate(passes: seq<Pass>, i: nat, j: nat, id: string)
    requires i < j < |LogOf(passes)| && Edge(LogOf(passes)[i], id) && Edge(LogOf(passes)[j], id)
    requires forall m :: i < m < j ==> !Edge(LogOf(passes)[m], id)
    ensures LogOf(passes)[i].delta.Raised? <==> LogOf(passes)[j].delta.Cleared?
  {
    DeltasReplay(passes);
    EdgesAlternate(map[], LogOf(passes), i, j, id);
  }

  lemma HearingEdge(known: Known, said: Said, id: string)
    requires Hear(known, said).Some?
    ensures Edge(said, id) ==> (id in Hear(known, said).value <==> said.delta.Raised?) && (id in known <==> said.delta.Cleared?)
    ensures !Edge(said, id) ==> (id in Hear(known, said).value <==> id in known)
  {
  }

  /** From one edge to the next the alarm stands if it was raised, and does not if cleared. */
  lemma {:induction false} StandsAfter(known: Known, log: seq<Said>, i: nat, j: nat, id: string)
    requires Follow(known, log).Some? && i < j <= |log| && Edge(log[i], id)
    requires forall m :: i < m < j ==> !Edge(log[m], id)
    ensures Follow(known, log[..j]).Some?
    ensures id in Follow(known, log[..j]).value <==> log[i].delta.Raised?
    decreases j
  {
    FollowStep(known, log, j);
    HearingEdge(Follow(known, log[..j - 1]).value, log[j - 1], id);
    if j > i + 1 {
      StandsAfter(known, log, i, j - 1, id);
    }
  }

  predicate Announces(said: Said, id: string) {
    About(said, id) && !said.delta.Cleared?
  }

  lemma HearingOf(known: Known, said: Said, id: string)
    requires Hear(known, said).Some?
    ensures !About(said, id) && id in known ==> id in Hear(known, said).value && Hear(known, said).value[id] == known[id]
    ensures Announces(said, id) ==> id in Hear(known, said).value && Hear(known, said).value[id].at == said.at
  {
  }

  lemma FollowStep(known: Known, log: seq<Said>, j: nat)
    requires Follow(known, log).Some? && 0 < j <= |log|
    ensures Follow(known, log[..j]).Some? && Follow(known, log[..j - 1]).Some?
    ensures Hear(Follow(known, log[..j - 1]).value, log[j - 1]) == Follow(known, log[..j])
  {
    FollowPrefix(known, log, j);
    FollowPrefix(known, log, j - 1);
    assert log[..j][..j - 1] == log[..j - 1];
  }

  lemma NextFits(known: Known, log: seq<Said>, j: nat)
    requires Follow(known, log).Some? && j < |log|
    ensures Follow(known, log[..j]).Some? && Hear(Follow(known, log[..j]).value, log[j]).Some?
  {
    FollowPrefix(known, log, j + 1);
    assert log[..j + 1][..j] == log[..j];
  }

  lemma {:induction false} KnownSince(known: Known, log: seq<Said>, i: nat, j: nat, id: string)
    requires Follow(known, log).Some? && i < j <= |log| && Announces(log[i], id)
    requires forall m :: i < m < j ==> !About(log[m], id)
    ensures Follow(known, log[..j]).Some? && id in Follow(known, log[..j]).value
    ensures Follow(known, log[..j]).value[id].at == log[i].at
    decreases j
  {
    FollowStep(known, log, j);
    HearingOf(Follow(known, log[..j - 1]).value, log[j - 1], id);
    if j > i + 1 {
      KnownSince(known, log, i, j - 1, id);
    }
  }

  /** What fits and announces a known alarm comes an interval after the last time. */
  lemma AgainInTime(known: Known, said: Said, id: string)
    requires Hear(known, said).Some? && id in known && Announces(said, id)
    ensures said.at - known[id].at >= said.renotify
  {
  }

  lemma HeardApart(known: Known, log: seq<Said>, i: nat, j: nat, id: string)
    requires Follow(known, log).Some? && i < j < |log| && Announces(log[i], id) && Announces(log[j], id)
    requires forall m :: i < m < j ==> !About(log[m], id)
    ensures log[j].at - log[i].at >= log[j].renotify
  {
    KnownSince(known, log, i, j, id);
    NextFits(known, log, j);
    AgainInTime(Follow(known, log[..j]).value, log[j], id);
  }

  /** Two announcements of an alarm that was not cleared in between are apart by the interval the
      later pass asks for. */
  lemma AnnouncementsAreApart(passes: seq<Pass>, i: nat, j: nat, id: string)
    requires i < j < |LogOf(passes)| && Announces(LogOf(passes)[i], id) && Announces(LogOf(passes)[j], id)
    requires forall m :: i < m < j ==> !About(LogOf(passes)[m], id)
    ensures LogOf(passes)[j].at - LogOf(passes)[i].at >= LogOf(passes)[j].renotify
  {
    DeltasReplay(passes);
    HeardApart(map[], LogOf(passes), i, j, id);
  }

  // ----- What an announcement names ------------------------------------------------------

  /** The entries and alarms a review announced again: `e` was due, and its alarm is there. */
  predicate Again(e: Entry, a: Alarm, current: map<string, Alarm>, renotify: real, now: real) {
    Due(e, renotify, now) && EntryId(e) in current && a == current[EntryId(e)]
  }

  ghost predicate AgainMeans(r: Review, state: seq<Entry>, current: map<string, Alarm>, renotify: real, now: real) {
    && (forall a :: Renotified(a) in r.delta ==> exists e :: e in state && Again(e, a, current, renotify, now))
    && (forall e, a :: e in state && Again(e, a, current, renotify, now) ==> Renotified(a) in r.delta && e.(notifiedAt := now) in r.kept)
    && (forall id :: id in r.left ==> id in current && r.left[id] == current[id])
    && (forall id :: id in current && id !in r.left ==> Has(state, id))
  }

  lemma DistinctLast(state: seq<Entry>)
    requires state != [] && Distinct(state)
    ensures Distinct(state[..|state| - 1]) && !Has(state[..|state| - 1], EntryId(state[|state| - 1]))
  {
    var n := |state| - 1;
    forall e | e in state[..n] ensures EntryId(e) != EntryId(state[n]) {
      var i :| 0 <= i < n && state[i] == e;
    }
  }

  lemma JudgeAgain(r: Review, state: seq<Entry>, e: Entry, current: map<string, Alarm>, renotify: real, now: real)
    requires AgainMeans(r, state, current, renotify, now) && !Has(state, EntryId(e))
    ensures AgainMeans(Judge(r, e, renotify, now), state + [e], current, renotify, now)
  {
    var r' := Judge(r, e, renotify, now);
    assert EntryId(e) in r.left <==> EntryId(e) in current;
    forall a | Renotified(a) in r'.delta ensures exists x :: x in state + [e] && Again(x, a, current, renotify, now) {
      if Renotified(a) in r.delta {
        var x :| x in state && Again(x, a, current, renotify, now);
        assert x in state + [e];
      } else {
        assert e in state + [e] && Again(e, a, current, renotify, now);
      }
    }
    forall id | id in current && id !in r'.left ensures Has(state + [e], id) {
      if Has(state, id) {
        var x :| x in state && EntryId(x) == id;
        assert x in state + [e];
      } else {
        assert e in state + [e];
      }
    }
  }

  lemma {:induction false} SiftAgain(state: seq<Entry>, current: map<string, Alarm>, renotify: real, now: real)
    requires Distinct(state)
    ensures AgainMeans(Sift(state, current, renotify, now), state, current, renotify, now)
  {
    if state != [] {
      var n := |state| - 1;
      DistinctLast(state);
      SiftAgain(state[..n], current, renotify, now);
      JudgeAgain(Sift(state[..n], current, renotify, now), state[..n], state[n], current, renotify, now);
      assert state == state[..n] + [state[n]];
    }
  }

  lemma {:induction false} RaiseAnnouncesNone(r: Review, ids: seq<string>, now: real)
    ensures forall a :: Renotified(a) in Raise(r, ids, now).delta <==> Renotified(a) in r.delta
    ensures forall e :: e in r.kept ==> e in Raise(r, ids, now).kept
  {
    if ids != [] {
      RaiseAnnouncesNone(r, ids[..|ids| - 1], now);
    }
  }

  /** A pass announces again exactly the current alarms of entries that are due, each as it is now,
      and keeps each such entry with only the time of the announcement changed. */
  lemma AnnouncedAgain(alarms: seq<Alarm>, state: seq<Entry>, renotify: real, now: real, a: Alarm)
    requires Distinct(state)
    ensures Renotified(a) in Evaluation(alarms, state, renotify, now).delta <==>
            exists e :: e in state && Again(e, a, Current(alarms), renotify, now)
    ensures forall e :: e in state && Again(e, a, Current(alarms), renotify, now) ==>
              e.(notifiedAt := now) in Evaluation(alarms, state, renotify, now).kept
  {
    var r := Sift(state, Current(alarms), renotify, now);
    SiftAgain(state, Current(alarms), renotify, now);
    RaiseAnnouncesNone(r, Order(alarms), now);
  }

  lemma OneEntry(state: seq<Entry>, e: Entry, e': Entry)
    requires Distinct(state) && e in state && e' in state && EntryId(e) == EntryId(e')
    ensures e == e'
  {
    var i :| 0 <= i < |state| && state[i] == e;
    var j :| 0 <= j < |state| && state[j] == e';
  }

  /** In any run, an alarm announced again and the entry kept for it name the same start exactly
      when the alarm there now names the start its entry has had since it was raised: the entry
      never changes it, and the announcement takes the alarm's own. */
  lemma AnnouncedSince(passes: seq<Pass>, pass: Pass, a: Alarm, e: Entry, k: Entry)
    requires Renotified(a) in DeltaAfter(StateOf(passes), pass)
    requires e in StateOf(passes) && k in StateOf(passes + [pass]) && EntryId(e) == EntryId(k) == AlarmId(a)
    ensures EntryId(e) in Current(pass.alarms) && a == Current(pass.alarms)[EntryId(e)] && k == e.(notifiedAt := pass.now)
    ensures Follow(map[], LogOf(passes)).Some? && EntryId(e) in Follow(map[], LogOf(passes)).value
    ensures a.since == k.since <==>
            Current(pass.alarms)[EntryId(e)].since == Follow(map[], LogOf(passes)).value[EntryId(e)].since
  {
    assert (passes + [pass])[..|passes|] == passes;
    DeltasReplay(passes);
    DeltasReplay(passes + [pass]);
    AnnouncedAgain(pass.alarms, StateOf(passes), pass.renotify, pass.now, a);
    var x :| x in StateOf(passes) && Again(x, a, Current(pass.alarms), pass.renotify, pass.now);
    assert AlarmId(a) == EntryId(x);
    OneEntry(StateOf(passes), x, e);
    OneEntry(StateOf(passes + [pass]), k, e.(notifiedAt := pass.now));
  }

  lemma FirstPass(a: Alarm, renotify: real, now: real)
    ensures StateOf([Pass([a], renotify, now)]) == [NewEntry(a, now)]
  {
    var id := AlarmId(a);
    assert [Pass([a], renotify, now)][..0] == [] && [a][..0] == [] && [id][..0] == [];
    assert Current([a]) == map[id := a] && Order([a]) == [id];
    var r := Sift([], map[id := a], renotify, now);
    assert Raise(r, [id], now).kept == [] + [NewEntry(a, now)];
  }

  /** They do differ: an alarm that names another start when it is due again is announced with that
      one, while its entry keeps the first. */
  lemma AnnouncedWithAnotherStart(a: Alarm, a': Alarm, renotify: real, now: real, later: real)
    requires AlarmId(a) == AlarmId(a') && a.since != a'.since && later - now >= renotify
    ensures var first, second := Pass([a], renotify, now), Pass([a'], renotify, later);
            && Renotified(a') in DeltaAfter(StateOf([first]), second)
            && NewEntry(a, now).(notifiedAt := later) in StateOf([first] + [second])
            && a'.since != NewEntry(a, now).(notifiedAt := later).since
  {
    var first, second := Pass([a], renotify, now), Pass([a'], renotify, later);
    FirstPass(a, renotify, now);
    assert ([first] + [second])[..1] == [first] && [a'][..0] == [];
    assert Current([a']) == map[AlarmId(a') := a'];
    AnnouncedAgain([a'], [NewEntry(a, now)], renotify, later, a');
    assert NewEntry(a, now) in [NewEntry(a, now)] && Again(NewEntry(a, now), a', Current([a']), renotify, later);
  }
}
