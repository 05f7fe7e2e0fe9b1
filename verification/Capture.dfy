/** Capture suppression: one enable flag over any number of exclusive-grab backends. */
module Captures {
  import opened Protocol

  datatype BackendCommand = Pause | Resume
  datatype BackendError = Stopped | NoAcknowledgement | Refused

  /**
   * What happens to one backend around one command: its thread may have ended before the command is sent,
   * it may end after accepting it without answering, draining stale events may fail, and the grab or
   * ungrab call may fail.
   */
  datatype Fate = Fate(ended: bool, silent: bool, drains: bool, ioctlWorks: bool)

  /** A backend thread; `inbox` is the history of commands it accepted. A dead thread has closed its device. */
  datatype Backend = Backend(alive: bool, grabbed: bool, inbox: seq<BackendCommand>)

  /** Sending: fails exactly when the thread is gone. */
  function Post(b: Backend, command: BackendCommand, fate: Fate): (Backend, bool) {
    if !b.alive || fate.ended then (b.(alive := false, grabbed := false), false)
    else (b.(inbox := b.inbox + [command]), true)
  }

  /** The thread's handling of one accepted command, and its answer. */
  function Serve(b: Backend, command: BackendCommand, fate: Fate): (Backend, Option<BackendError>) {
    if fate.silent then (b.(alive := false, grabbed := false), Some(NoAcknowledgement))
    else
      match command
      case Pause =>
        if b.grabbed && !fate.ioctlWorks then (b, Some(Refused)) else (b.(grabbed := false), None)
      case Resume =>
        if !fate.drains || (!b.grabbed && !fate.ioctlWorks) then (b, Some(Refused))
        else (b.(grabbed := true), None)
  }

  function Exchange(b: Backend, command: BackendCommand, fate: Fate): (Backend, Option<BackendError>) {
    var (posted, sent) := Post(b, command, fate);
    if sent then Serve(posted, command, fate) else (posted, Some(Stopped))
  }

  /** The fate of backend `i` in exchange `k`. */
  type Fates = (nat, nat) -> Fate

  datatype Capture = Capture(enabled: bool, backends: seq<Backend>, exchanges: nat)

  function Answers(cap: Capture, command: BackendCommand, fates: Fates): seq<Option<BackendError>> {
    seq(|cap.backends|, i requires 0 <= i < |cap.backends| =>
      Exchange(cap.backends[i], command, fates(cap.exchanges, i)).1)
  }

  function First(errors: seq<Option<BackendError>>): (r: Option<BackendError>)
    ensures r.None? <==> forall i :: 0 <= i < |errors| ==> errors[i].None?
  {
    if |errors| == 0 then None
    else
      var r := First(errors[..|errors| - 1]);
      if r.Some? then r else errors[|errors| - 1]
  }

  /** Every backend sees the command; a failed send outranks a failed answer. */
  function CommandAll(cap: Capture, command: BackendCommand, fates: Fates): (Capture, Option<BackendError>) {
    var backends := seq(|cap.backends|, i requires 0 <= i < |cap.backends| =>
      Exchange(cap.backends[i], command, fates(cap.exchanges, i)).0);
    var answers := Answers(cap, command, fates);
    (cap.(backends := backends, exchanges := cap.exchanges + 1),
     if Some(Stopped) in answers then Some(Stopped) else First(answers))
  }

  function PauseAll(cap: Capture, fates: Fates): (Capture, Option<BackendError>) {
    CommandAll(cap.(enabled := false), Pause, fates)
  }

  function ResumeAll(cap: Capture, fates: Fates): (Capture, Option<BackendError>) {
    var (resumed, error) := CommandAll(cap, Resume, fates);
    if error.Some? then (CommandAll(resumed, Pause, fates).0, error)
    else (resumed.(enabled := true), None)
  }

  /** Exactly these commands have reached the backend since it looked like `before`. */
  predicate HeardSince(b: Backend, commands: seq<BackendCommand>, before: Backend) {
    b.inbox == before.inbox + commands
  }

  // ----- properties -----

  /**
   * A backend acknowledges a command exactly when its thread lives to answer it and the device does what is
   * asked: nothing is asked of a device already let go, and a resuming device must first be drained.
   */
  predicate Acknowledges(b: Backend, command: BackendCommand, fate: Fate) {
    && b.alive && !fate.ended && !fate.silent
    && (command == Pause ==> !b.grabbed || fate.ioctlWorks)
    && (command == Resume ==> fate.drains && (b.grabbed || fate.ioctlWorks))
  }

  /** One backend before and after one command: acknowledged commands take hold, and dead threads hold nothing. */
  predicate Met(b: Backend, b': Backend, command: BackendCommand, fate: Fate) {
    && (b'.alive <==> b.alive && !fate.ended && !fate.silent)
    && (b'.grabbed <==> b'.alive && if Acknowledges(b, command, fate) then command == Resume else b.grabbed)
    && b'.inbox == if b.alive && !fate.ended then b.inbox + [command] else b.inbox
  }

  /** All backends before and after one command to all of them. */
  ghost predicate Commanded(before: Capture, after: Capture, command: BackendCommand, fates: Fates) {
    && |after.backends| == |before.backends| && after.exchanges == before.exchanges + 1
    && forall i :: 0 <= i < |before.backends| ==>
         Met(before.backends[i], after.backends[i], command, fates(before.exchanges, i))
  }

  predicate AllAcknowledge(cap: Capture, command: BackendCommand, fates: Fates) {
    forall i :: 0 <= i < |cap.backends| ==> Acknowledges(cap.backends[i], command, fates(cap.exchanges, i))
  }

  /** The error is that of a thread already gone, if any is; otherwise that of the first backend not to acknowledge. */
  predicate Blames(cap: Capture, command: BackendCommand, fates: Fates, error: BackendError) {
    if exists i :: 0 <= i < |cap.backends| && (!cap.backends[i].alive || fates(cap.exchanges, i).ended)
    then error == Stopped
    else exists i ::
      (0 <= i < |cap.backends|
       && !Acknowledges(cap.backends[i], command, fates(cap.exchanges, i))
       && (forall j :: 0 <= j < i ==> Acknowledges(cap.backends[j], command, fates(cap.exchanges, j)))
       && error == if fates(cap.exchanges, i).silent then NoAcknowledgement else Refused)
  }

  lemma ExchangeIsExact(b: Backend, command: BackendCommand, fate: Fate)
    ensures var (b', answer) := Exchange(b, command, fate);
      && Met(b, b', command, fate)
      && (answer.None? <==> Acknowledges(b, command, fate))
      && (answer.Some? ==>
            answer.value ==
              if !b.alive || fate.ended then Stopped
              else if fate.silent then NoAcknowledgement
              else Refused)
  {
  }

  lemma {:induction false} FirstIsEarliest(errors: seq<Option<BackendError>>)
    ensures First(errors).Some? ==> exists i ::
      (0 <= i < |errors| && errors[i] == First(errors) && forall j :: 0 <= j < i ==> errors[j].None?)
  {
    if |errors| > 0 {
      var n := |errors| - 1;
      FirstIsEarliest(errors[..n]);
      if First(errors).Some? {
        if First(errors[..n]).None? {
          assert errors[n] == First(errors) && forall j :: 0 <= j < n ==> errors[..n][j].None?;
        } else {
          var i :| 0 <= i < n && errors[..n][i] == First(errors[..n]) &&
            forall j :: 0 <= j < i ==> errors[..n][j].None?;
          assert errors[i] == First(errors) && forall j :: 0 <= j < i ==> errors[j] == errors[..n][j];
        }
      }
    }
  }

  /**
   * A command to all backends succeeds exactly when every one of them acknowledges it. Each backend meets the
   * command whatever the others do, and a failure names the backend to blame.
   */
  lemma CommandAllSucceedsIffAllAcknowledge(cap: Capture, command: BackendCommand, fates: Fates)
    ensures var (after, error) := CommandAll(cap, command, fates);
      && after.enabled == cap.enabled
      && Commanded(cap, after, command, fates)
      && (error.None? <==> AllAcknowledge(cap, command, fates))
      && (error.Some? ==> Blames(cap, command, fates, error.value))
  {
    hide Exchange, First, Met, Acknowledges;
    var answers := Answers(cap, command, fates);
    forall i | 0 <= i < |cap.backends|
      ensures var (b', answer) := Exchange(cap.backends[i], command, fates(cap.exchanges, i));
        && Met(cap.backends[i], b', command, fates(cap.exchanges, i)) && answers[i] == answer
        && (answer.None? <==> Acknowledges(cap.backends[i], command, fates(cap.exchanges, i)))
        && (answer == Some(Stopped) <==> !cap.backends[i].alive || fates(cap.exchanges, i).ended)
    {
      ExchangeIsExact(cap.backends[i], command, fates(cap.exchanges, i));
      AcknowledgesAlive(cap.backends[i], command, fates(cap.exchanges, i));
    }
    BlameIsExact(cap, command, fates);
  }

  lemma AcknowledgesAlive(b: Backend, command: BackendCommand, fate: Fate)
    ensures Acknowledges(b, command, fate) ==> b.alive && !fate.ended
  {
  }

  lemma BlameIsExact(cap: Capture, command: BackendCommand, fates: Fates)
    ensures var error := CommandAll(cap, command, fates).1;
      && (error.None? <==> AllAcknowledge(cap, command, fates))
      && (error.Some? ==> Blames(cap, command, fates, error.value))
  {
    hide Exchange, First, Met, Acknowledges;
    var answers := Answers(cap, command, fates);
    forall i | 0 <= i < |answers|
      ensures answers[i].None? <==> Acknowledges(cap.backends[i], command, fates(cap.exchanges, i))
      ensures answers[i] == Some(Stopped) <==> !cap.backends[i].alive || fates(cap.exchanges, i).ended
      ensures answers[i].Some? && answers[i] != Some(Stopped) ==>
        answers[i].value == if fates(cap.exchanges, i).silent then NoAcknowledgement else Refused
    {
      ExchangeIsExact(cap.backends[i], command, fates(cap.exchanges, i));
      AcknowledgesAlive(cap.backends[i], command, fates(cap.exchanges, i));
    }
    FirstIsEarliest(answers);
  }

  /** Resuming failed and was undone: every backend was told to resume and then, whatever it answered, to pause. */
  ghost predicate RolledBack(before: Capture, after: Capture, fates: Fates) {
    after.enabled == before.enabled &&
    exists mid: Capture :: Commanded(before, mid, Resume, fates) && Commanded(mid, after, Pause, fates)
  }

  /**
   * Reacquisition is all or rollback. It succeeds exactly when every backend is alive to answer, drains, and
   * still holds its device or can grab it; then every device is grabbed and capture is enabled. Otherwise the
   * flag is untouched, and every backend still alive was told to pause right after being told to resume,
   * staying grabbed only if it refused to let go.
   */
  lemma ResumeIsAllOrRollback(cap: Capture, fates: Fates)
    ensures var (after, error) := ResumeAll(cap, fates);
      && |after.backends| == |cap.backends|
      && (error.None? <==> forall i :: 0 <= i < |cap.backends| ==>
            var b, fate := cap.backends[i], fates(cap.exchanges, i);
            b.alive && !fate.ended && !fate.silent && fate.drains && (b.grabbed || fate.ioctlWorks))
      && (error.Some? ==> Blames(cap, Resume, fates, error.value))
    ensures var (after, error) := ResumeAll(cap, fates);
      error.None? ==>
        && after.enabled && Commanded(cap, after, Resume, fates)
        && forall i :: 0 <= i < |after.backends| ==>
             && after.backends[i].alive && after.backends[i].grabbed
             && HeardSince(after.backends[i], [Resume], cap.backends[i])
    ensures var (after, error) := ResumeAll(cap, fates);
      error.Some? ==>
        && RolledBack(cap, after, fates)
        && forall i :: 0 <= i < |after.backends| && after.backends[i].alive ==>
             && HeardSince(after.backends[i], [Resume, Pause], cap.backends[i])
             && (after.backends[i].grabbed ==> !fates(cap.exchanges + 1, i).ioctlWorks)
  {
    hide CommandAll, Blames;
    CommandAllSucceedsIffAllAcknowledge(cap, Resume, fates);
    var (resumed, error) := CommandAll(cap, Resume, fates);
    var (after, _) := ResumeAll(cap, fates);
    if error.None? {
      assert Commanded(cap, after, Resume, fates);
    } else {
      CommandAllSucceedsIffAllAcknowledge(resumed, Pause, fates);
      assert Commanded(resumed, after, Pause, fates);
      forall i | 0 <= i < |after.backends| && after.backends[i].alive
        ensures HeardSince(after.backends[i], [Resume, Pause], cap.backends[i])
      {
        assert cap.backends[i].inbox + [Resume] + [Pause] == cap.backends[i].inbox + [Resume, Pause];
      }
    }
  }

  /**
   * Pausing always disables capture. It succeeds exactly when every backend is alive to answer and holds no
   * device it cannot let go of; a device stays grabbed only when a live backend refused to ungrab it.
   */
  lemma PauseReleasesDevices(cap: Capture, fates: Fates)
    ensures var (after, error) := PauseAll(cap, fates);
      && !after.enabled && |after.backends| == |cap.backends|
      && Commanded(cap, after, Pause, fates)
      && (error.None? <==> forall i :: 0 <= i < |cap.backends| ==>
            var b, fate := cap.backends[i], fates(cap.exchanges, i);
            b.alive && !fate.ended && !fate.silent && (!b.grabbed || fate.ioctlWorks))
      && (error.Some? ==> Blames(cap, Pause, fates, error.value))
      && (forall i :: 0 <= i < |after.backends| && after.backends[i].grabbed ==>
            after.backends[i].alive && !fates(cap.exchanges, i).ioctlWorks)
  {
    hide CommandAll, Blames;
    var disabled := cap.(enabled := false);
    CommandAllSucceedsIffAllAcknowledge(disabled, Pause, fates);
    var error := CommandAll(disabled, Pause, fates).1;
    if error.Some? {
      SameBlame(cap, disabled, Pause, fates, error.value);
    }
  }

  lemma SameBlame(cap: Capture, cap': Capture, command: BackendCommand, fates: Fates, error: BackendError)
    requires cap'.backends == cap.backends && cap'.exchanges == cap.exchanges
    ensures Blames(cap', command, fates, error) <==> Blames(cap, command, fates, error)
  {
    hide Acknowledges;
  }

  /** The thread working through its control queue; it keeps answering until it ends. */
  function ServeEach(b: Backend, commands: seq<BackendCommand>, fates: seq<Fate>): (Backend, seq<Option<BackendError>>)
    requires |commands| == |fates|
  {
    if |commands| == 0 then (b, [])
    else
      var n := |commands| - 1;
      var (b1, answers) := ServeEach(b, commands[..n], fates[..n]);
      var (b2, answer) := Serve(b1, commands[n], fates[n]);
      (b2, answers + [answer])
  }

  /** Acknowledged commands alone decide whether the device is grabbed: the latest one wins. */
  function GrabbedAfter(initially: bool, commands: seq<BackendCommand>, answers: seq<Option<BackendError>>): bool
    requires |commands| == |answers|
  {
    if |commands| == 0 then initially
    else if answers[|answers| - 1].None? then commands[|commands| - 1] == Resume
    else GrabbedAfter(initially, commands[..|commands| - 1], answers[..|answers| - 1])
  }

  lemma {:induction false} LatestAcknowledgedCommandWins(b: Backend, commands: seq<BackendCommand>, fates: seq<Fate>)
    requires |commands| == |fates|
    requires forall i :: 0 <= i < |fates| ==> !fates[i].silent
    ensures var (after, answers) := ServeEach(b, commands, fates);
      && |answers| == |commands| && after == b.(grabbed := after.grabbed)
      && after.grabbed == GrabbedAfter(b.grabbed, commands, answers)
      && AnswersRightly(b.grabbed, commands, fates, answers)
  {
    hide AnswersRightly;
    if |commands| == 0 {
      NoAnswers(b.grabbed);
    } else {
      var n := |commands| - 1;
      LatestAcknowledgedCommandWins(b, commands[..n], fates[..n]);
      var (_, answers) := ServeEach(b, commands, fates);
      assert answers[..n] == ServeEach(b, commands[..n], fates[..n]).1;
      OneMoreAnswer(b.grabbed, commands, fates, answers, ServeEach(b, commands[..n], fates[..n]).0.grabbed);
    }
  }

  /**
   * Every answer is right: the device being grabbed just before as the latest acknowledged command says, a pause is
   * acknowledged exactly when there is nothing to let go or it is let go, and a resume exactly when the device drains
   * and is held or can be grabbed.
   */
  predicate AnswersRightly(
    initially: bool, commands: seq<BackendCommand>, fates: seq<Fate>, answers: seq<Option<BackendError>>)
  {
    && |fates| == |answers| == |commands|
    && forall k :: 0 <= k < |commands| ==>
         var held := GrabbedAfter(initially, commands[..k], answers[..k]);
         var willing := match commands[k]
           case Pause => !held || fates[k].ioctlWorks
           case Resume => fates[k].drains && (held || fates[k].ioctlWorks);
         answers[k] == if willing then None else Some(Refused)
  }

  lemma NoAnswers(initially: bool)
    ensures AnswersRightly(initially, [], [], [])
  {
  }

  lemma OneMoreAnswer(
    initially: bool, commands: seq<BackendCommand>, fates: seq<Fate>, answers: seq<Option<BackendError>>, grabbed: bool)
    requires 0 < |commands| == |fates| == |answers|
    requires var n := |commands| - 1;
      && AnswersRightly(initially, commands[..n], fates[..n], answers[..n])
      && grabbed == GrabbedAfter(initially, commands[..n], answers[..n])
      && answers[n] ==
           if (match commands[n]
               case Pause => !grabbed || fates[n].ioctlWorks
               case Resume => fates[n].drains && (grabbed || fates[n].ioctlWorks)) then None else Some(Refused)
    ensures AnswersRightly(initially, commands, fates, answers)
  {
    var n := |commands| - 1;
    forall k | 0 <= k < |commands|
      ensures var held := GrabbedAfter(initially, commands[..k], answers[..k]);
        var willing := match commands[k]
          case Pause => !held || fates[k].ioctlWorks
          case Resume => fates[k].drains && (held || fates[k].ioctlWorks);
        answers[k] == if willing then None else Some(Refused)
    {
      if k < n {
        assert commands[..n][..k] == commands[..k] && answers[..n][..k] == answers[..k];
        assert answers[..n][k] == answers[k] && commands[..n][k] == commands[k] && fates[..n][k] == fates[k];
      }
    }
  }

  /** The backend thread's command loop, with `grabbed` as its local variable. */
  method ServeControl(b: Backend, commands: seq<BackendCommand>, fates: seq<Fate>)
    returns (grabbed: bool, answers: seq<Option<BackendError>>)
    requires |fates| == |commands|
    requires forall i :: 0 <= i < |fates| ==> !fates[i].silent
    ensures (b.(grabbed := grabbed), answers) == ServeEach(b, commands, fates)
    ensures AnswersRightly(b.grabbed, commands, fates, answers)
    ensures grabbed == GrabbedAfter(b.grabbed, commands, answers)
  {
    hide AnswersRightly;
    grabbed := b.grabbed;
    answers := [];
    for k := 0 to |commands|
      invariant (b.(grabbed := grabbed), answers) == ServeEach(b, commands[..k], fates[..k])
    {
      assert commands[..k + 1][..k] == commands[..k] && fates[..k + 1][..k] == fates[..k];
      var answer: Option<BackendError> := None;
      match commands[k] {
        case Pause =>
          if grabbed {
            if fates[k].ioctlWorks {
              grabbed := false;
            } else {
              answer := Some(Refused);
            }
          }
        case Resume =>
          if !fates[k].drains {
            answer := Some(Refused);
          } else if !grabbed {
            if fates[k].ioctlWorks {
              grabbed := true;
            } else {
              answer := Some(Refused);
            }
          }
      }
      answers := answers + [answer];
    }
    assert commands[..|commands|] == commands && fates[..|commands|] == fates;
    LatestAcknowledgedCommandWins(b, commands, fates);
  }

  class CaptureControl {
    var enabled: bool
    var backends: seq<Backend>
    /** How many commands have been exchanged, and what each backend meets in each exchange. */
    var exchanges: nat
    const fates: Fates

    ghost function View(): Capture
      reads this
    {
      Capture(enabled, backends, exchanges)
    }

    constructor (backends: seq<Backend>, fates: Fates)
      ensures View() == Capture(true, backends, 0) && this.fates == fates
    {
      this.enabled, this.backends, this.exchanges, this.fates := true, backends, 0, fates;
    }

    /** Sends to every backend first, then collects every answer, keeping the first error met. */
    method CommandBackends(command: BackendCommand) returns (firstError: Option<BackendError>)
      modifies this`backends, this`exchanges
      ensures (View(), firstError) == CommandAll(old(View()), command, fates)
    {
      hide First, Trues;
      ghost var before := View();
      var replies;
      replies, firstError := SendToAll(command);
      TruesAreIndices(Reached(before, command, fates));
      firstError := CollectAnswers(before, command, replies, firstError);
      StoppedOutranksAnswers(before, command, fates);
      exchanges := exchanges + 1;
      assert backends == CommandAll(before, command, fates).0.backends;
    }

    method SendToAll(command: BackendCommand) returns (replies: seq<nat>, firstError: Option<BackendError>)
      modifies this`backends
      ensures |backends| == |old(backends)|
      ensures forall j :: 0 <= j < |backends| ==> backends[j] == Post(old(backends[j]), command, fates(exchanges, j)).0
      ensures replies == Trues(Reached(old(View()), command, fates))
      ensures firstError == if false in Reached(old(View()), command, fates) then Some(Stopped) else None
    {
      ghost var reached := Reached(View(), command, fates);
      replies := [];
      firstError := None;
      for i := 0 to |backends|
        invariant |backends| == |reached| == |old(backends)|
        invariant forall j :: 0 <= j < i ==> backends[j] == Post(old(backends[j]), command, fates(exchanges, j)).0
        invariant forall j :: i <= j < |backends| ==> backends[j] == old(backends[j])
        invariant replies == Trues(reached[..i])
        invariant firstError == if false in reached[..i] then Some(Stopped) else None
      {
        TruesStep(reached, i);
        var (posted, sent) := Post(backends[i], command, fates(exchanges, i));
        backends := backends[i := posted];
        if sent {
          replies := replies + [i];
        } else if firstError.None? {
          firstError := Some(Stopped);
        }
      }
      assert reached[..|reached|] == reached;
    }

    method CollectAnswers(
      ghost before: Capture, command: BackendCommand, replies: seq<nat>, sendError: Option<BackendError>)
      returns (firstError: Option<BackendError>)
      requires |before.backends| == |backends| && before.exchanges == exchanges
      requires forall j :: 0 <= j < |backends| ==>
        backends[j] == Post(before.backends[j], command, fates(exchanges, j)).0
      requires forall k :: 0 <= k < |replies| ==>
        replies[k] < |backends| && Post(before.backends[replies[k]], command, fates(exchanges, replies[k])).1
      requires forall a, b :: 0 <= a < b < |replies| ==> replies[a] < replies[b]
      requires sendError.None? ==> |replies| == |backends| && forall i :: 0 <= i < |replies| ==> replies[i] == i
      modifies this`backends
      ensures |backends| == |before.backends|
      ensures forall j :: 0 <= j < |backends| ==> 
        backends[j] == (if j in replies then Exchange(before.backends[j], command, fates(exchanges, j)).0
                        else Post(before.backends[j], command, fates(exchanges, j)).0)
      ensures firstError == if sendError.Some? then sendError else First(Answers(before, command, fates))
    {
      ghost var answers := Answers(before, command, fates);
      firstError := sendError;
      for r := 0 to |replies|
        invariant |backends| == |before.backends|
        invariant forall j :: 0 <= j < |backends| ==> 
          backends[j] == (if j in replies[..r] then Exchange(before.backends[j], command, fates(exchanges, j)).0
                          else Post(before.backends[j], command, fates(exchanges, j)).0)
        invariant sendError.Some? ==> firstError == sendError
        invariant sendError.None? ==> firstError == First(answers[..r])
      {
        var i := replies[r];
        assert replies[..r + 1] == replies[..r] + [i];
        assert i !in replies[..r];
        var (served, answer) := Serve(backends[i], command, fates(exchanges, i));
        FirstStep(answers, r);
        backends := backends[i := served];
        if answer.Some? && firstError.None? {
          firstError := answer;
        }
      }
      assert replies[..|replies|] == replies;
      assert answers[..|answers|] == answers;
    }

    method Pause() returns (error: Option<BackendError>)
      modifies this
      ensures (View(), error) == PauseAll(old(View()), fates)
    {
      enabled := false;
      error := CommandBackends(BackendCommand.Pause);
    }

    method Resume() returns (error: Option<BackendError>)
      modifies this
      ensures (View(), error) == ResumeAll(old(View()), fates)
    {
      error := CommandBackends(BackendCommand.Resume);
      if error.Some? {
        var _ := CommandBackends(BackendCommand.Pause);
        return;
      }
      enabled := true;
    }
  }

  // ----- the two loops of `CommandBackends` -----

  ghost function Reached(cap: Capture, command: BackendCommand, fates: Fates): seq<bool> {
    seq(|cap.backends|, i requires 0 <= i < |cap.backends| =>
      Post(cap.backends[i], command, fates(cap.exchanges, i)).1)
  }

  /** The positions of the true entries, in order. */
  ghost function Trues(flags: seq<bool>): seq<nat> {
    if |flags| == 0 then []
    else
      var earlier := Trues(flags[..|flags| - 1]);
      if flags[|flags| - 1] then earlier + [|flags| - 1] else earlier
  }

  lemma TruesStep(flags: seq<bool>, i: nat)
    requires i < |flags|
    ensures Trues(flags[..i + 1]) == if flags[i] then Trues(flags[..i]) + [i] else Trues(flags[..i])
    ensures false in flags[..i + 1] <==> false in flags[..i] || !flags[i]
  {
    assert flags[..i + 1] == flags[..i] + [flags[i]];
    assert flags[..i + 1][..i] == flags[..i];
  }

  lemma {:induction false} TruesAreIndices(flags: seq<bool>)
    ensures forall k :: 0 <= k < |Trues(flags)| ==> Trues(flags)[k] < |flags| && flags[Trues(flags)[k]]
    ensures forall a, b :: 0 <= a < b < |Trues(flags)| ==> Trues(flags)[a] < Trues(flags)[b]
    ensures forall i :: 0 <= i < |flags| && flags[i] ==> i in Trues(flags)
    ensures false !in flags ==> |Trues(flags)| == |flags| && forall i :: 0 <= i < |flags| ==> Trues(flags)[i] == i
  {
    if |flags| > 0 {
      var n := |flags| - 1;
      TruesAreIndices(flags[..n]);
      forall i | 0 <= i < |flags| && flags[i] ensures i in Trues(flags) {
        if i < n {
          assert flags[..n][i];
        }
      }
    }
  }

  lemma FirstStep(answers: seq<Option<BackendError>>, r: nat)
    ensures r < |answers| ==>
      First(answers[..r + 1]) == if First(answers[..r]).Some? then First(answers[..r]) else answers[r]
  {
    if r < |answers| {
      assert answers[..r + 1][..r] == answers[..r];
    }
  }

  lemma StoppedOutranksAnswers(cap: Capture, command: BackendCommand, fates: Fates)
    ensures Some(Stopped) in Answers(cap, command, fates) <==> false in Reached(cap, command, fates)
  {
    var answers, reached := Answers(cap, command, fates), Reached(cap, command, fates);
    forall i | 0 <= i < |answers| ensures answers[i] == Some(Stopped) <==> !reached[i] {
      assert answers[i] == Exchange(cap.backends[i], command, fates(cap.exchanges, i)).1;
      assert reached[i] == Post(cap.backends[i], command, fates(cap.exchanges, i)).1;
    }
  }
}
