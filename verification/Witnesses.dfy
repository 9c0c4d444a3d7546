/** Concrete inputs on which the log, the outbox and the normaliser do less than their names promise. */
module Witnesses {
  import opened Wrappers
  import opened Text
  import opened Vocabulary
  import opened Events
  import opened Listing
  import opened Outbox
  import opened Actions

  const EVERYONE := Scope(Global, None, None, None)
  const NOTE := EventInput(OtherType("note"), EVERYONE, Telegram, Some(50), None, None, None, Opaque(""))
  const STREAM := "event-stream:global"

  lemma NoteFits(id: EventId, now: int)
    ensures Draft(NOTE, id, now) == Ok(Event(id, NOTE.kind, "global", EVERYONE, Telegram, 50, 0, None, STREAM, None, NOTE.fact, now))
  {
    assert "event-stream:" + "global" == STREAM;
  }

  // ---- a worker that cannot settle ----

  /** A worker name of 121 characters. */
  const LONG_NAME: string := seq(121, _ => 'w')

  function OneNote(): Store {
    AppendAll([AppendCall(Flags(true, true), NOTE, 1, 100)])
  }

  lemma OneRow()
    ensures OneNote().outbox == [OutboxRow(1, Queued, 0, 100, None, None, None)]
  {
    NoteFits(1, 100);
    assert [AppendCall(Flags(true, true), NOTE, 1, 100)][..0] == [];
    assert AppendAll([]) == EMPTY;
  }

  lemma LongNameIs()
    ensures Trim(LONG_NAME) == LONG_NAME && LockName(LONG_NAME) == LONG_NAME[..120] && LockName(LONG_NAME) != LONG_NAME
  {
    TrimIs(LONG_NAME);
  }

  lemma OneRowPicked(rows: seq<OutboxRow>, now: int)
    requires |rows| == 1 && rows[0].status == Queued && rows[0].availableAt <= now
    ensures Picks(rows, 20, now, 60) == [0]
  {
    assert AllDue(rows[..0], now, 60) == [];
    assert AllDue(rows, now, 60) == [0];
  }

  lemma OneRowClaimed(rows: seq<OutboxRow>, worker: string, now: int)
    requires |rows| == 1 && rows[0].status == Queued && rows[0].availableAt <= now && LockName(worker) != ""
    ensures Claim(rows, worker, 20, 60, now) == ([Lock(rows[0], LockName(worker), now)], [Item(0, rows[0].attempts + 1)])
  {
    OneRowPicked(rows, now);
    assert 0 in [0];
    var (next, items) := Claim(rows, worker, 20, 60, now);
    assert next == [Lock(rows[0], LockName(worker), now)];
    assert items == [Item(0, rows[0].attempts + 1)];
  }

  /** It claims the row of a fresh event and can neither acknowledge it nor fail it; the lease over, the row is due again. */
  lemma LongNameNeverSettles(error: string, retry: int, now: int)
    ensures var (rows, items) := Claim(OneNote().outbox, LONG_NAME, 20, 60, 100);
            && items == [Item(0, 1)] && rows[0].status == Processing
            && Ack(rows, 0, LONG_NAME) == (rows, false) && Fail(rows, 0, error, retry, LONG_NAME, now) == (rows, false)
            && Due(rows[0], 160, 60)
  {
    OneRow();
    LongNameIs();
    OneRowClaimed(OneNote().outbox, LONG_NAME, 100);
    FencedOff(Claim(OneNote().outbox, LONG_NAME, 20, 60, 100).0, 0, LONG_NAME, error, retry, now);
  }

  // ---- a replay cut short ----

  function Notes(n: nat): seq<AppendCall> {
    seq(n, i requires 0 <= i < n => AppendCall(Flags(true, false), NOTE, i, 100))
  }

  lemma OneMoreNote(st: Store, id: EventId)
    requires !HasEvent(st.log, id)
    ensures var next := Append(st, Flags(true, false), NOTE, id, 100).0;
            |next.log| == |st.log| + 1 && st.log == next.log[..|st.log|] && next.log[|st.log|].id == id
            && Stream(next.log, STREAM) == Stream(st.log, STREAM) + [next.log[|st.log|]]
  {
    NoteFits(id, 100);
    var next := Append(st, Flags(true, false), NOTE, id, 100).0;
    assert next.log[..|st.log|] == st.log;
  }

  /** The first n notes, numbered from zero, all in one stream. */
  ghost predicate Filled(log: seq<Event>, n: nat) {
    |log| == n && Stream(log, STREAM) == log && forall i :: 0 <= i < n ==> log[i].id == i
  }

  lemma NotesGrow(n: nat)
    ensures AppendAll(Notes(n + 1)) == Append(AppendAll(Notes(n)), Flags(true, false), NOTE, n, 100).0
  {
    assert Notes(n + 1)[..n] == Notes(n);
    assert Notes(n + 1)[n] == AppendCall(Flags(true, false), NOTE, n, 100);
  }

  lemma FilledIsNew(log: seq<Event>, n: nat)
    requires Filled(log, n)
    ensures !HasEvent(log, n)
  {
  }

  lemma FilledMore(log: seq<Event>, next: seq<Event>, n: nat)
    requires Filled(log, n) && |next| == n + 1 && log == next[..n] && next[n].id == n
    requires Stream(next, STREAM) == Stream(log, STREAM) + [next[n]]
    ensures Filled(next, n + 1)
  {
    assert next == log + [next[n]];
  }

  lemma {:induction false} NotesStored(n: nat)
    ensures Filled(AppendAll(Notes(n)).log, n)
  {
    if n > 0 {
      NotesStored(n - 1);
      NotesGrow(n - 1);
      var st := AppendAll(Notes(n - 1));
      FilledIsNew(st.log, n - 1);
      OneMoreNote(st, n - 1);
      FilledMore(st.log, AppendAll(Notes(n)).log, n - 1);
    } else {
      assert Notes(0) == [];
    }
  }

  /** A thousand and one events of one stream are not all replayed. */
  lemma ReplayStopsShort()
    ensures var log := AppendAll(Notes(1001)).log;
            |Stream(log, STREAM)| == 1001 && Replayed(log, STREAM) != Stream(log, STREAM) && Replayed(log, STREAM) <= Stream(log, STREAM)
  {
    NotesStored(1001);
    EveryLogWellFormed(Notes(1001));
    ReplayIsWholeStreamIff(AppendAll(Notes(1001)).log, STREAM);
  }

  // ---- an action that changes when normalised again ----

  /** A goal whose two thousandth character is a blank between two words. */
  const GOAL: string := seq(1999, _ => 'a') + " b"
  const PERFORM := Object(map["type" := Str("act"), "goal" := Str(GOAL)])

  lemma GoalClipped()
    ensures Validate(PERFORM) == Ok(Perform(GOAL[..2000], None)) && !Tight(GOAL[..2000])
  {
    TrimIs(GOAL);
    assert GOAL[..2000][1999] == ' ';
  }

  lemma NormalisedTwiceDiffers()
    ensures Validate(PERFORM).Ok?
    ensures var once := Validate(PERFORM).value;
            Validate(AsRaw(once)).Ok? && Validate(AsRaw(once)).value != once
  {
    GoalClipped();
    NormalisingTwice(PERFORM);
  }
}
