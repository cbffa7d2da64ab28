/** The executor's supervision of one process, and what it reports to the control plane. */
module Supervision {
  import opened Common
  import opened Tables

  /**
   * What one turn of the select loop may see; killOk says how a kill asked for in that turn would go, and stored
   * whether both streams were captured and the outputs uploaded after the exit.
   */
  datatype Turn =
    | Exited(code: Option<int>, stored: bool)
    | WaitFailed
    | Ticked(seen: Option<Status>, killOk: bool)
    | TimerFired(killOk: bool)

  /** An outcome to report, an error, or a process still running when the turns given ran out. */
  datatype Ending = Finished(status: Status) | Broken | Unfinished

  /** build_outcome's choice of status. */
  function StatusOf(code: Option<int>, cancelled: bool, timedOut: bool): Status {
    if timedOut then TimedOut
    else if cancelled then Cancelled
    else if code == Some(0) then Succeeded
    else Failed
  }

  // ---------- what decides: the first stop, if it comes before the first end ----------

  /** A turn that would have the process killed. */
  predicate Stops(t: Turn) {
    t.TimerFired? || (t.Ticked? && t.seen == Some(Cancelled))
  }

  predicate Ends(t: Turn) {
    t.Exited? || t.WaitFailed?
  }

  function FirstStop(turns: seq<Turn>): (r: nat)
    ensures r <= |turns| && (r < |turns| ==> Stops(turns[r])) && forall i :: 0 <= i < r ==> !Stops(turns[i])
  {
    if turns == [] || Stops(turns[0]) then 0 else 1 + FirstStop(turns[1..])
  }

  function FirstEnd(turns: seq<Turn>): (r: nat)
    ensures r <= |turns| && (r < |turns| ==> Ends(turns[r])) && forall i :: 0 <= i < r ==> !Ends(turns[i])
  {
    if turns == [] || Ends(turns[0]) then 0 else 1 + FirstEnd(turns[1..])
  }

  function Verdict(turns: seq<Turn>): Ending {
    var stop, end := FirstStop(turns), FirstEnd(turns);
    if stop < end && !turns[stop].killOk then Broken
    else if end == |turns| then Unfinished
    else if turns[end].WaitFailed? || !turns[end].stored then Broken
    else if stop < end then Finished(if turns[stop].Ticked? then Cancelled else TimedOut)
    else Finished(if turns[end].code == Some(0) then Succeeded else Failed)
  }

  // ---------- what each ending means, turn by turn ----------

  /** Before this turn the process neither exited nor was lost sight of. */
  ghost predicate Alive(turns: seq<Turn>, n: nat) {
    n <= |turns| && forall j :: 0 <= j < n ==> !turns[j].Exited? && !turns[j].WaitFailed?
  }

  /** Nor did its time run out, nor was it seen to be cancelled. */
  ghost predicate Undisturbed(turns: seq<Turn>, n: nat) {
    Alive(turns, n) &&
    forall j :: 0 <= j < n ==> !turns[j].TimerFired? && !(turns[j].Ticked? && turns[j].seen == Some(Cancelled))
  }

  ghost predicate TimeRanOut(turns: seq<Turn>, i: nat) {
    i < |turns| && Undisturbed(turns, i) && turns[i].TimerFired?
  }

  ghost predicate CancelSeen(turns: seq<Turn>, i: nat) {
    i < |turns| && Undisturbed(turns, i) && turns[i].Ticked? && turns[i].seen == Some(Cancelled)
  }

  /** The process was to be killed, and could not be. */
  ghost predicate KillFails(turns: seq<Turn>, i: nat) {
    (TimeRanOut(turns, i) || CancelSeen(turns, i)) && !turns[i].killOk
  }

  /** It left, and all it had put out was stored. */
  ghost predicate Left(turns: seq<Turn>, e: nat) {
    e < |turns| && Alive(turns, e) && turns[e].Exited? && turns[e].stored
  }

  /** It was lost sight of, or what it had put out was. */
  ghost predicate Lost(turns: seq<Turn>, e: nat) {
    e < |turns| && Alive(turns, e) && (turns[e].WaitFailed? || (turns[e].Exited? && !turns[e].stored))
  }

  ghost predicate Means(turns: seq<Turn>, ending: Ending) {
    match ending
    case Unfinished => Alive(turns, |turns|) && forall i: nat :: !KillFails(turns, i)
    case Broken => (exists i: nat :: KillFails(turns, i)) || (exists e: nat :: Lost(turns, e))
    case Finished(TimedOut) =>
      exists i: nat, e: nat :: i < e && TimeRanOut(turns, i) && turns[i].killOk && Left(turns, e)
    case Finished(Cancelled) =>
      exists i: nat, e: nat :: i < e && CancelSeen(turns, i) && turns[i].killOk && Left(turns, e)
    case Finished(Succeeded) => exists e: nat :: Left(turns, e) && Undisturbed(turns, e) && turns[e].code == Some(0)
    case Finished(Failed) => exists e: nat :: Left(turns, e) && Undisturbed(turns, e) && turns[e].code != Some(0)
    case Finished(_) => false
  }

  lemma EndIs(turns: seq<Turn>, e: nat)
    requires Left(turns, e) || Lost(turns, e)
    ensures e == FirstEnd(turns)
  {
  }

  lemma StopIs(turns: seq<Turn>, i: nat)
    requires TimeRanOut(turns, i) || CancelSeen(turns, i)
    ensures i == FirstStop(turns) < FirstEnd(turns)
  {
  }

  /** A stop that comes first is one of the two, and an end that comes is one of the two. */
  lemma FirstsAre(turns: seq<Turn>)
    ensures var stop, end := FirstStop(turns), FirstEnd(turns);
            && Alive(turns, end)
            && (stop < end ==> TimeRanOut(turns, stop) || CancelSeen(turns, stop))
            && (end <= stop ==> Undisturbed(turns, end))
            && (end < |turns| ==> Left(turns, end) || Lost(turns, end))
  {
    var stop, end := FirstStop(turns), FirstEnd(turns);
    forall j | 0 <= j < end
      ensures !turns[j].Exited? && !turns[j].WaitFailed?
    {
      assert !Ends(turns[j]);
    }
    forall j | 0 <= j < stop
      ensures !turns[j].TimerFired? && !(turns[j].Ticked? && turns[j].seen == Some(Cancelled))
    {
      assert !Stops(turns[j]);
    }
  }

  lemma VerdictIsMeant(turns: seq<Turn>)
    ensures Means(turns, Verdict(turns))
  {
    var stop, end := FirstStop(turns), FirstEnd(turns);
    FirstsAre(turns);
    if stop < end && !turns[stop].killOk {
      assert KillFails(turns, stop);
    } else if end == |turns| {
      forall i: nat
        ensures !KillFails(turns, i)
      {
        if TimeRanOut(turns, i) || CancelSeen(turns, i) { StopIs(turns, i); }
      }
    } else if Lost(turns, end) {
    } else if stop < end {
      assert (TimeRanOut(turns, stop) || CancelSeen(turns, stop)) && Left(turns, end);
    }
  }

  lemma MeantIsVerdict(turns: seq<Turn>, ending: Ending)
    requires Means(turns, ending)
    ensures ending == Verdict(turns)
  {
    forall e: nat | Left(turns, e) || Lost(turns, e)
      ensures e == FirstEnd(turns)
    {
      EndIs(turns, e);
    }
    forall i: nat | TimeRanOut(turns, i) || CancelSeen(turns, i)
      ensures i == FirstStop(turns) < FirstEnd(turns)
    {
      StopIs(turns, i);
    }
    FirstsAre(turns);
    if ending == Unfinished && FirstStop(turns) < FirstEnd(turns) {
      assert !KillFails(turns, FirstStop(turns));
    }
  }

  /** The select loop: at most one kill, one reason for it, and the one ending that the turns mean. */
  method Supervise(turns: seq<Turn>) returns (ending: Ending, cancelled: bool, timedOut: bool, kills: nat)
    ensures ending == Verdict(turns)
    ensures forall x :: Means(turns, x) <==> x == ending
    ensures timedOut <==> exists i: nat :: TimeRanOut(turns, i)
    ensures cancelled <==> exists i: nat :: CancelSeen(turns, i)
    ensures !(cancelled && timedOut)
    ensures kills == if FirstStop(turns) < FirstEnd(turns) then 1 else 0
    ensures cancelled || timedOut <==> kills == 1
  {
    VerdictIsMeant(turns);
    forall x | Means(turns, x)
      ensures x == Verdict(turns)
    {
      MeantIsVerdict(turns, x);
    }
    FirstsAre(turns);
    forall i: nat | TimeRanOut(turns, i) || CancelSeen(turns, i)
      ensures i == FirstStop(turns) < FirstEnd(turns)
    {
      StopIs(turns, i);
    }
    cancelled, timedOut, kills := false, false, 0;
    var i := 0;
    while i < |turns|
      invariant 0 <= i <= FirstEnd(turns)
      invariant !(cancelled && timedOut) && (cancelled || timedOut <==> FirstStop(turns) < i)
      invariant kills == if cancelled || timedOut then 1 else 0
      invariant cancelled || timedOut ==>
                  turns[FirstStop(turns)].killOk && (cancelled <==> turns[FirstStop(turns)].Ticked?)
    {
      match turns[i] {
        case Exited(code, stored) =>
          ending := if stored then Finished(StatusOf(code, cancelled, timedOut)) else Broken;
          return;
        case WaitFailed =>
          ending := Broken;
          return;
        case Ticked(seen, killOk) =>
          if !cancelled && !timedOut && seen == Some(Cancelled) {
            cancelled, kills := true, kills + 1;
            if !killOk {
              ending := Broken;
              return;
            }
          }
        case TimerFired(killOk) =>
          if !cancelled && !timedOut {
            timedOut, kills := true, kills + 1;
            if !killOk {
              ending := Broken;
              return;
            }
          }
      }
      i := i + 1;
    }
    ending := Unfinished;
  }

  /**
   * Success is reported exactly when the process left with code 0 before anything stopped or broke it, and its
   * outputs were stored.
   */
  lemma SucceededExactly(turns: seq<Turn>)
    ensures Verdict(turns) == Finished(Succeeded) <==>
              exists e :: 0 <= e < |turns| && turns[e] == Exited(Some(0), true) &&
                forall i :: 0 <= i < e ==> !Stops(turns[i]) && !Ends(turns[i])
  {
  }

  // ---------- the report ----------

  /** The name a status prints as. */
  function NameOf(s: Status): string {
    match s
    case Queued => "Queued"
    case Scheduled => "Scheduled"
    case Running => "Running"
    case Succeeded => "Succeeded"
    case Failed => "Failed"
    case Cancelled => "Cancelled"
    case TimedOut => "TimedOut"
    case DeadLetter => "DeadLetter"
  }

  /** The names the status handler accepts; any other is a bad request. */
  function ParseReport(name: string): Option<Status> {
    if name == "Running" then Some(Running)
    else if name == "Succeeded" then Some(Succeeded)
    else if name == "Failed" then Some(Failed)
    else if name == "Cancelled" then Some(Cancelled)
    else if name == "TimedOut" then Some(TimedOut)
    else None
  }

  /** What the executor's main loop sends once the process is over. */
  function ReportedName(e: Ending): string
    requires !e.Unfinished?
  {
    if e.Finished? then NameOf(e.status) else "Failed"
  }

  /** Of the eight statuses, the handler reads the five that an executor may report, as what they are. */
  lemma NamesReadBack(s: Status)
    ensures ParseReport(NameOf(s)) == if s == Queued || s == Scheduled || s == DeadLetter then None else Some(s)
  {
  }

  /** Whatever the turns, the final report is one the handler accepts, terminal, and the status decided. */
  lemma FinalReportFits(turns: seq<Turn>)
    requires !Verdict(turns).Unfinished?
    ensures var parsed := ParseReport(ReportedName(Verdict(turns)));
            parsed.Some? && Terminal(parsed.value) && parsed.value != DeadLetter &&
            parsed.value == if Verdict(turns).Finished? then Verdict(turns).status else Failed
  {
  }

  // ---------- streams ----------

  datatype Read = Data(bytes: Bytes) | ReadError

  predicate Carries(r: Read) {
    r.Data? && r.bytes != []
  }

  /** How many reads bring something before the stream ends, with an empty read, or breaks. */
  function Until(input: seq<Read>): (r: nat)
    ensures r <= |input| && (r < |input| ==> !Carries(input[r])) && forall i :: 0 <= i < r ==> Carries(input[i])
  {
    if input == [] || !Carries(input[0]) then 0 else 1 + Until(input[1..])
  }

  /** The chunks read before that. */
  function Received(input: seq<Read>): seq<Bytes> {
    seq(Until(input), i requires 0 <= i < Until(input) => input[i].bytes)
  }

  predicate Breaks(input: seq<Read>) {
    Until(input) < |input| && input[Until(input)].ReadError?
  }

  function Flatten(chunks: seq<Bytes>): Bytes {
    if chunks == [] then [] else Flatten(chunks[..|chunks| - 1]) + chunks[|chunks| - 1]
  }

  /** Concatenation, in the order of the chunks. */
  lemma {:induction false} FlattenJoins(a: seq<Bytes>, b: seq<Bytes>)
    ensures Flatten(a + b) == Flatten(a) + Flatten(b)
    ensures forall c: Bytes :: Flatten([c]) == c
    decreases |b|
  {
    if b == [] {
      assert a + b == a;
    } else {
      var front, last := b[..|b| - 1], b[|b| - 1];
      assert (a + b)[..|a + b| - 1] == a + front && (a + b)[|a + b| - 1] == last;
      FlattenJoins(a, front);
    }
    forall c: Bytes
      ensures Flatten([c]) == c
    {
      assert [c][..0] == [];
    }
  }

  /**
   * Reading a stream: every chunk received is sent, in the order read, whatever becomes of it, and the bytes kept are
   * their concatenation. A read error loses the capture but not what was sent.
   */
  method StreamAndCapture(input: seq<Read>) returns (all: Option<Bytes>, sent: seq<Bytes>)
    ensures |sent| <= |input| && forall j :: 0 <= j < |sent| ==> sent[j] != [] && input[j] == Data(sent[j])
    ensures |sent| < |input| ==> input[|sent|] == Data([]) || input[|sent|] == ReadError
    ensures all == None <==> |sent| < |input| && input[|sent|] == ReadError
    ensures sent == Received(input)
    ensures all == if Breaks(input) then None else Some(Flatten(Received(input)))
  {
    var kept: Bytes := [];
    sent := [];
    var i := 0;
    while i < |input|
      invariant 0 <= i <= Until(input)
      invariant |sent| == i && forall j :: 0 <= j < i ==> sent[j] == input[j].bytes
      invariant kept == Flatten(sent)
    {
      match input[i] {
        case ReadError =>
          return None, sent;
        case Data(bytes) =>
          if bytes == [] {
            break;
          }
          kept := kept + bytes;
          assert (sent + [bytes])[..|sent + [bytes]| - 1] == sent;
          sent := sent + [bytes];
      }
      i := i + 1;
    }
    all := Some(kept);
  }
}
