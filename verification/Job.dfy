/** The optional values of nullable columns and optional arguments. */
module Options {
  datatype Option<+T> = None | Some(value: T) {
    function GetOr(default: T): T {
      match this
      case Some(v) => v
      case None => default
    }
  }
}

/** The job record and its life cycle. */
module Jobs {
  import opened Octets
  import opened Options

  /** Seconds on one clock. */
  type Time = int

  const MINUTE: Time := 60
  const HOUR: Time := 3600

  datatype State = New | Submitted | Downloading | CompletedTorbox | Ready | Failed | Canceled {
    predicate Terminal() {
      Ready? || Failed? || Canceled?
    }

    /** TorBox is working on it; these are the rows the poller lists. */
    predicate InFlight() {
      Submitted? || Downloading?
    }
  }

  predicate CanTransition(from: State, to: State) {
    if from == to then false else
    match from
    case New => to == Submitted || to == Failed || to == Canceled
    case Submitted => to == Downloading || to == CompletedTorbox || to == Failed || to == Canceled
    case Downloading => to == CompletedTorbox || to == Failed || to == Canceled
    case CompletedTorbox => to == Ready || to == Failed || to == Canceled
    case _ => false
  }

  datatype Source = Usenet | Torrent

  datatype Row = Row(
    category: string,
    filename: string,
    hash: string,
    blob: Option<Bytes>,
    magnet: Option<string>,
    source: Source,
    state: State,
    attempts: nat,
    lastError: Option<string>,
    claimedAt: Option<Time>,
    nextAttemptAt: Option<Time>,
    createdAt: Time,
    updatedAt: Time,
    completedAt: Option<Time>,
    submittedAt: Option<Time>,
    queueID: Option<int>,
    activeID: Option<int>,
    folder: Option<string>,
    localPath: Option<string>,
    bytesDownloaded: int,
    bytesTotal: int,
    pushoverSentAt: Option<Time>)
  {
    /** When TorBox got the job; rows without a stamp fall back to their creation. */
    function InFlightSince(): Time {
      submittedAt.GetOr(createdAt)
    }

    function EffectiveTorboxID(): int {
      if activeID.Some? then activeID.value
      else if queueID.Some? then queueID.value
      else 0
    }
  }

  // ----- The shape of the life cycle -----

  /** An unfinished job advances by one stage, may skip DOWNLOADING, and may fail or be canceled at any. */
  lemma NextStates(s: State, t: State)
    ensures CanTransition(s, t) <==>
              && s != Ready && s != Failed && s != Canceled
              && (t == Failed || t == Canceled
                  || (s, t) == (New, Submitted) || (s, t) == (Submitted, Downloading)
                  || (s, t) == (Submitted, CompletedTorbox) || (s, t) == (Downloading, CompletedTorbox)
                  || (s, t) == (CompletedTorbox, Ready))
  {
  }

  /** A sequence of states, each a legal successor of the one before. */
  ghost predicate IsPath(path: seq<State>) {
    forall i :: 0 < i < |path| ==> CanTransition(path[i - 1], path[i])
  }

  function Rank(s: State): nat {
    match s
    case New => 0
    case Submitted => 1
    case Downloading => 2
    case CompletedTorbox => 3
    case _ => 4
  }

  /** The terminal states are exactly those without a successor. */
  lemma TerminalHasNoSuccessor(s: State)
    ensures s.Terminal() <==> forall t :: !CanTransition(s, t)
  {
    if !s.Terminal() {
      assert CanTransition(s, Canceled);
    }
  }

  lemma {:induction false} PathRaisesRank(path: seq<State>, n: nat)
    requires IsPath(path) && n < |path|
    ensures Rank(path[n]) >= Rank(path[0]) + n
  {
    if n > 0 {
      PathRaisesRank(path, n - 1);
      assert CanTransition(path[n - 1], path[n]);
    }
  }

  /** A job changes state at most four times, and never after a terminal state. */
  lemma PathIsShort(path: seq<State>)
    requires IsPath(path) && path != []
    ensures |path| <= 5
    ensures forall i :: 0 <= i < |path| - 1 ==> !path[i].Terminal()
  {
    PathRaisesRank(path, |path| - 1);
    forall i | 0 <= i < |path| - 1
      ensures !path[i].Terminal()
    {
      assert CanTransition(path[i], path[i + 1]);
    }
  }
}
