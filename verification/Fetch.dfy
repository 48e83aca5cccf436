/** py/fetch.py's download: a retry loop that resumes a .part file against a
    server that may do anything, and lands it only when it checks out. */
module Fetch {
  import opened Prelude

  type Byte = b: int | 0 <= b < 256
  type Bytes = seq<Byte>

  /** What one request meets: an HTTP error, a failure before any byte, or a body read chunk by chunk,
      which may break off with an exception (broken) or just end. */
  datatype Reply = Refused(code: int) | Unreachable | Body(status: int, chunks: seq<Bytes>, broken: bool)

  datatype Failure = Offline | Gated | NotFound | HttpError(code: int) | NetworkError | WrongSize | WrongHash
      | NoPartFile

  /** Waiting: every reply of the script was used and the loop goes on. */
  datatype Outcome = Returned | Raised(failure: Failure) | Waiting

  datatype Files = Files(part: Option<Bytes>, dest: Option<Bytes>)

  /** sha256 is "" and size None when the caller gives none. */
  datatype Job = Job(sha256: string, size: Option<nat>, retries: int, offline: bool, hash: Bytes -> string)

  datatype Run = Run(files: Files, outcome: Outcome, used: nat)

  function Have(files: Files): nat {
    if files.part.Some? then |files.part.value| else 0
  }

  /** The reads until the first empty one. */
  function Received(chunks: seq<Bytes>): Bytes {
    if chunks == [] || chunks[0] == [] then [] else chunks[0] + Received(chunks[1..])
  }

  /** A part file longer than the size is dropped. */
  function Trimmed(job: Job, files: Files): Files {
    if job.size.Some? && Have(files) > job.size.value then files.(part := None) else files
  }

  /** The part file after a body: appended to unless there was none or the server started over. */
  function Grown(files: Files, body: Reply): Bytes
    requires body.Body?
  {
    (if Have(files) > 0 && body.status != 200 then files.part.value else []) + Received(body.chunks)
  }

  /** After the loop: size, hash, and the rename into place. */
  function Landed(job: Job, files: Files, used: nat): Run {
    if files.part == None then Run(files, Raised(NoPartFile), used)
    else if job.size.Some? && |files.part.value| != job.size.value then Run(files, Raised(WrongSize), used)
    else if job.sha256 != "" && job.hash(files.part.value) != job.sha256
    then Run(files.(part := None), Raised(WrongHash), used)
    else Run(Files(None, files.part), Returned, used)
  }

  function Used(run: Run): Run { run.(used := run.used + 1) }

  /** What one reply leads to: out of the loop to the checks, an exception, or another turn. */
  datatype Turn = Settled | Failed(failure: Failure) | Again

  function TurnOf(job: Job, files: Files, reply: Reply, attempt: nat): Turn {
    match reply
    case Refused(code) =>
      if code == 416 && Have(files) > 0 then Settled
      else if code == 401 || code == 403 then Failed(Gated)
      else if code == 404 then Failed(NotFound)
      else if attempt >= job.retries then Failed(HttpError(code))
      else Again
    case Unreachable => if attempt >= job.retries then Failed(NetworkError) else Again
    case Body(_, _, broken) =>
      if broken then (if attempt >= job.retries then Failed(NetworkError) else Again)
      else if job.size == None || |Grown(files, reply)| >= job.size.value then Settled
      else Again
  }

  function Served(files: Files, reply: Reply): Files {
    if reply.Body? then files.(part := Some(Grown(files, reply))) else files
  }

  /** The retry loop, one reply a turn. */
  function Loop(job: Job, was: Files, replies: seq<Reply>, attempt: nat): Run
    decreases |replies|
  {
    var files := Trimmed(job, was);
    if job.size == Some(Have(files)) then Landed(job, files, 0)
    else if replies == [] then Run(files, Waiting, 0)
    else
      var served := Served(files, replies[0]);
      match TurnOf(job, files, replies[0], attempt)
      case Settled => Landed(job, served, 1)
      case Failed(failure) => Run(served, Raised(failure), 1)
      case Again => Used(Loop(job, served, replies[1..], attempt + 1))
  }

  predicate Here(job: Job, files: Files) {
    files.dest.Some? && job.sha256 != "" && job.hash(files.dest.value) == job.sha256
  }

  function Downloaded(job: Job, files: Files, replies: seq<Reply>): Run {
    if Here(job, files) then Run(files, Returned, 0)
    else if job.offline then Run(files, Raised(Offline), 0)
    else Loop(job, files, replies, 0)
  }

  // --------------------------------------------------------------- method --

  /** dest and dest.part on disk. */
  class Disk {
    var part: Option<Bytes>
    var dest: Option<Bytes>

    ghost function View(): Files
      reads this
    {
      Files(part, dest)
    }

    /** The inner loop: read a chunk, write it, until an empty read. */
    method Write(chunks: seq<Bytes>)
      requires part.Some?
      modifies this`part
      ensures part == Some(old(part.value) + Received(chunks))
    {
      var k := 0;
      assert chunks[0..] == chunks;
      while k < |chunks| && chunks[k] != []
        invariant k <= |chunks| && part.Some?
        invariant part.value + Received(chunks[k..]) == old(part.value) + Received(chunks)
      {
        assert chunks[k..][1..] == chunks[k + 1..];
        part := Some(part.value + chunks[k]);
        k := k + 1;
      }
      assert Received(chunks[k..]) == [];
      assert part.value + [] == part.value;
    }

    /** After the loop. */
    method Land(job: Job) returns (outcome: Outcome)
      modifies this
      ensures Run(View(), outcome, 0) == Landed(job, old(View()), 0)
    {
      if part == None {
        return Raised(NoPartFile);
      }
      if job.size.Some? && |part.value| != job.size.value {
        return Raised(WrongSize);
      }
      if job.sha256 != "" && job.hash(part.value) != job.sha256 {
        part := None;
        return Raised(WrongHash);
      }
      dest := part;
      part := None;
      return Returned;
    }

    /** One request: what it leads to, and the part file it leaves. */
    method Request(job: Job, reply: Reply, attempt: nat) returns (turn: Turn)
      modifies this`part
      ensures turn == TurnOf(job, old(View()), reply, attempt)
      ensures View() == Served(old(View()), reply)
    {
      var have := if part.Some? then |part.value| else 0;
      match reply {
        case Refused(code) =>
          if code == 416 && have > 0 {
            return Settled;
          }
          if code == 401 || code == 403 {
            return Failed(Gated);
          }
          if code == 404 {
            return Failed(NotFound);
          }
          if attempt >= job.retries {
            return Failed(HttpError(code));
          }
        case Unreachable =>
          if attempt >= job.retries {
            return Failed(NetworkError);
          }
        case Body(status, chunks, broken) =>
          if have > 0 && status == 200 {
            have := 0;
          }
          if have == 0 {
            part := Some([]);
          }
          Write(chunks);
          if broken {
            if attempt >= job.retries {
              return Failed(NetworkError);
            }
          } else if job.size == None || |part.value| >= job.size.value {
            return Settled;
          }
      }
      return Again;
    }

    method Download(job: Job, replies: seq<Reply>) returns (outcome: Outcome, used: nat)
      modifies this
      ensures Run(View(), outcome, used) == Downloaded(job, old(View()), replies)
    {
      hide TurnOf, Served, Landed;
      if dest.Some? && job.sha256 != "" && job.hash(dest.value) == job.sha256 {
        return Returned, 0;
      }
      if job.offline {
        return Raised(Offline), 0;
      }
      var attempt := 0;
      used := 0;
      ghost var was := View();
      assert replies[0..] == replies;
      while true
        invariant used <= |replies| && attempt == used
        invariant Loop(job, was, replies, 0) == Plus(Loop(job, View(), replies[used..], attempt), used)
        decreases |replies| - used
      {
        var have := if part.Some? then |part.value| else 0;
        if job.size.Some? && have > job.size.value {
          part := None;
          have := 0;
        }
        if job.size == Some(have) {
          break;
        }
        if used == |replies| {
          return Waiting, used;
        }
        assert replies[used..][0] == replies[used] && replies[used..][1..] == replies[used + 1..];
        var turn := Request(job, replies[used], attempt);
        used := used + 1;
        if turn.Failed? {
          return Raised(turn.failure), used;
        }
        if turn == Settled {
          break;
        }
        attempt := attempt + 1;
      }
      LandedUsed(job, View(), used);
      outcome := Land(job);
    }
  }

  lemma LandedUsed(job: Job, files: Files, used: nat)
    ensures Plus(Landed(job, files, 0), used) == Landed(job, files, used)
    ensures used > 0 ==> Plus(Landed(job, files, 1), used - 1) == Landed(job, files, used)
    ensures Landed(job, files, used) == Landed(job, files, 0).(used := used)
  {
  }

  function Plus(run: Run, k: nat): Run { run.(used := run.used + k) }

  // -------------------------------------------- only verified bytes land --

  lemma LandedChecks(job: Job, files: Files, used: nat)
    ensures var run := Landed(job, files, used);
            && run.used == used && run.outcome != Waiting
            && (run.outcome == Returned <==>
                  files.part.Some? && (job.size.Some? ==> |files.part.value| == job.size.value)
                  && (job.sha256 != "" ==> job.hash(files.part.value) == job.sha256))
            && run.files.dest == (if run.outcome == Returned then files.part else files.dest)
            && (run.outcome == Returned ==> run.files.part == None)
  {
  }

  lemma {:induction false} LoopLands(job: Job, files: Files, replies: seq<Reply>, attempt: nat)
    ensures var run := Loop(job, files, replies, attempt);
            && run.used <= |replies|
            && (run.outcome == Waiting ==> run.used == |replies|)
            && (run.outcome != Returned ==> run.files.dest == files.dest)
            && (run.outcome == Returned ==>
                  run.files.dest.Some? && run.files.part == None
                  && (job.size.Some? ==> |run.files.dest.value| == job.size.value)
                  && (job.sha256 != "" ==> job.hash(run.files.dest.value) == job.sha256))
    decreases |replies|
  {
    hide TurnOf, Landed;
    var trimmed := Trimmed(job, files);
    LandedChecks(job, trimmed, 0);
    if replies != [] {
      var served := Served(trimmed, replies[0]);
      LandedChecks(job, served, 1);
      LoopLands(job, served, replies[1..], attempt + 1);
    }
  }

  /** Against any server: a download that returns leaves at dest bytes with the hash that was asked for, and
      of the size when they were fetched now; one that raises, or is still at it, leaves dest as it was. */
  lemma OnlyVerifiedLands(job: Job, files: Files, replies: seq<Reply>)
    ensures var run := Downloaded(job, files, replies);
            && (run.outcome != Returned ==> run.files.dest == files.dest)
            && (run.outcome == Returned && job.sha256 != "" ==>
                  run.files.dest.Some? && job.hash(run.files.dest.value) == job.sha256)
            && (run.outcome == Returned && !Here(job, files) ==>
                  run.files.dest.Some? && run.files.part == None
                  && (job.size.Some? ==> |run.files.dest.value| == job.size.value))
  {
    LoopLands(job, files, replies, 0);
  }

  // ------------------------------------------- resuming a fixed content --

  /** A reply of a server whose file is content: it may refuse, drop, end short or ignore the range
      (RFC 9110, 14.2, 15.3.7 and 15.5.17), but what it sends is the content's, from where it was asked. */
  predicate Honest(content: Bytes, have: nat, reply: Reply) {
    match reply
    case Refused(code) => code == 416 ==> have >= |content|
    case Unreachable => true
    case Body(status, chunks, _) =>
      || (status == 200 && Received(chunks) <= content)
      || (status == 206 && have <= |content| && Received(chunks) <= content[have..])
  }

  /** Every reply the run uses is honest for what it was asked. */
  predicate HonestRun(job: Job, was: Files, replies: seq<Reply>, attempt: nat, content: Bytes)
    decreases |replies|
  {
    var files := Trimmed(job, was);
    replies == [] || job.size == Some(Have(files))
    || (Honest(content, Have(files), replies[0])
        && (TurnOf(job, files, replies[0], attempt) == Again ==>
              HonestRun(job, Served(files, replies[0]), replies[1..], attempt + 1, content)))
  }

  predicate Prefix(part: Option<Bytes>, content: Bytes) {
    part.Some? ==> part.value <= content
  }

  lemma ServedPrefix(files: Files, reply: Reply, content: Bytes)
    requires Prefix(files.part, content) && Honest(content, Have(files), reply)
    ensures Prefix(Served(files, reply).part, content)
  {
    if reply.Body? {
      var got := Received(reply.chunks);
      if Have(files) > 0 && reply.status != 200 {
        var part := files.part.value;
        assert content == part + content[|part|..];
        assert part + got <= part + content[|part|..];
      } else {
        assert [] + got == got;
      }
    }
  }

  /** The part file stays a prefix of the content, and what lands is one. */
  lemma {:induction false} LoopKeepsPrefix(job: Job, was: Files, replies: seq<Reply>, attempt: nat, content: Bytes)
    requires Prefix(was.part, content) && HonestRun(job, was, replies, attempt, content)
    ensures var run := Loop(job, was, replies, attempt);
            Prefix(run.files.part, content)
            && (run.outcome == Returned ==> run.files.dest.Some? && run.files.dest.value <= content)
    decreases |replies|
  {
    hide TurnOf, Honest, Served;
    var files := Trimmed(job, was);
    if replies != [] && job.size != Some(Have(files)) {
      ServedPrefix(files, replies[0], content);
      if TurnOf(job, files, replies[0], attempt) == Again {
        LoopKeepsPrefix(job, Served(files, replies[0]), replies[1..], attempt + 1, content);
      }
    }
  }

  /** A job that asks for this content: its size and its hash, if any. */
  predicate Wants(job: Job, content: Bytes) {
    && (job.size.Some? ==> job.size.value == |content|)
    && (job.sha256 != "" ==> job.hash(content) == job.sha256)
  }

  /** The reply that ends the loop is a body that stops before the content does, with no exception. */
  predicate CutShort(job: Job, was: Files, replies: seq<Reply>, attempt: nat, content: Bytes)
    decreases |replies|
  {
    var files := Trimmed(job, was);
    replies != [] && job.size != Some(Have(files))
    && match TurnOf(job, files, replies[0], attempt)
       case Settled => Have(Served(files, replies[0])) < |content|
       case Failed(_) => false
       case Again => CutShort(job, Served(files, replies[0]), replies[1..], attempt + 1, content)
  }

  lemma WholeLands(job: Job, files: Files, used: nat, content: Bytes)
    requires Wants(job, content) && Prefix(files.part, content) && files.part.Some? && Have(files) >= |content|
    ensures Landed(job, files, used) == Run(Files(None, Some(content)), Returned, used)
  {
    assert files.part.value == content;
  }

  lemma ShortLands(job: Job, files: Files, used: nat, content: Bytes)
    requires job.size == None && files.part.Some? && Have(files) < |content|
    ensures var run := Landed(job, files, used);
            && (run.outcome == Returned || run.outcome == Raised(WrongHash))
            && (job.sha256 == "" ==> run.outcome == Returned)
            && (run.outcome == Returned ==> run.files.dest != Some(content))
  {
  }

  /** Against an honest server for the content a job wants, what lands is the whole content exactly when the last
      body was not cut short, and no check fails otherwise; a job with a size is never cut short, and one with neither
      size nor hash lands the part it got. Only a file of size 0 with no part file fails for want of one. */
  lemma {:induction false} HonestLands(job: Job, was: Files, replies: seq<Reply>, attempt: nat, content: Bytes)
    requires Wants(job, content) && Prefix(was.part, content) && HonestRun(job, was, replies, attempt, content)
    ensures var run, short := Loop(job, was, replies, attempt), CutShort(job, was, replies, attempt, content);
            && (run.outcome == Returned ==> (run.files.dest == Some(content) <==> !short))
            && (run.outcome == Raised(WrongHash) ==> short)
            && run.outcome != Raised(WrongSize)
            && (short ==> job.size == None && (run.outcome == Returned || run.outcome == Raised(WrongHash))
                          && (job.sha256 == "" ==> run.outcome == Returned))
            && (run.outcome == Raised(NoPartFile) <==> job.size == Some(0) && was.part == None)
    decreases |replies|
  {
    hide TurnOf, Served, Landed;
    var files := Trimmed(job, was);
    assert files == was;
    if job.size == Some(Have(files)) {
      if files.part.Some? {
        WholeLands(job, files, 0, content);
      } else {
        NothingToLand(job, files, 0);
      }
    } else if replies != [] {
      ServedPrefix(files, replies[0], content);
      var served := Served(files, replies[0]);
      var turn := TurnOf(job, files, replies[0], attempt);
      if turn == Again {
        ServedGrows(job, files, replies[0]);
        HonestLands(job, served, replies[1..], attempt + 1, content);
      } else if turn == Settled {
        SettledWhole(job, files, replies[0], attempt, content);
        if Have(served) >= |content| {
          WholeLands(job, served, 1, content);
        } else {
          ShortLands(job, served, 1, content);
        }
      } else {
        FailedFor(job, files, replies[0], attempt);
      }
    }
  }

  lemma NothingToLand(job: Job, files: Files, used: nat)
    requires files.part == None
    ensures Landed(job, files, used) == Run(files, Raised(NoPartFile), used)
  {
  }

  lemma ServedGrows(job: Job, files: Files, reply: Reply)
    requires job.size != Some(Have(files))
    ensures Served(files, reply).part == None ==> files.part == None && job.size != Some(0)
  {
  }

  lemma SettledWhole(job: Job, files: Files, reply: Reply, attempt: nat, content: Bytes)
    requires Wants(job, content) && Prefix(files.part, content) && job.size != Some(Have(files))
    requires Honest(content, Have(files), reply) && TurnOf(job, files, reply, attempt) == Settled
    ensures var served := Served(files, reply); served.part.Some? && (job.size.Some? ==> Have(served) >= |content|)
  {
  }

  lemma FailedFor(job: Job, files: Files, reply: Reply, attempt: nat)
    ensures TurnOf(job, files, reply, attempt).Failed? ==>
              TurnOf(job, files, reply, attempt).failure !in {WrongSize, WrongHash, NoPartFile}
  {
  }

  /** A file of size 0 is only ever landed from an empty part file; with none the download raises, asking nothing. */
  lemma EmptyFile(job: Job, files: Files, replies: seq<Reply>)
    requires job.size == Some(0) && !Here(job, files) && !job.offline
    ensures var run := Downloaded(job, files, replies);
            && run.used == 0
            && (run.outcome == Returned <==>
                 files.part == Some([]) && (job.sha256 != "" ==> job.hash([]) == job.sha256))
            && (files.part == None ==> run.outcome == Raised(NoPartFile))
  {
  }

  // ------------------------------------------------------- how long it takes --

  predicate Raises(reply: Reply) { reply.Refused? || reply.Unreachable? || reply.broken }

  function Failures(replies: seq<Reply>): nat {
    if replies == [] then 0 else (if Raises(replies[0]) then 1 else 0) + Failures(replies[1..])
  }

  /** At most retries raised failures are absorbed: one more, or one that cannot be retried, ends the download. */
  lemma {:induction false} FailuresAbsorbed(job: Job, was: Files, replies: seq<Reply>, attempt: nat)
    ensures var run := Loop(job, was, replies, attempt);
            run.used <= |replies|
            && Failures(replies[..run.used])
               <= Max(0, job.retries - attempt) + (if run.outcome == Waiting then 0 else 1)
    decreases |replies|
  {
    var files := Trimmed(job, was);
    if replies != [] && job.size != Some(Have(files)) {
      var served, rest := Served(files, replies[0]), replies[1..];
      if TurnOf(job, files, replies[0], attempt) == Again {
        FailuresAbsorbed(job, served, rest, attempt + 1);
        var n := Loop(job, served, rest, attempt + 1).used;
        assert replies[..n + 1][1..] == rest[..n];
      } else {
        assert replies[..1][1..] == [];
      }
    }
  }

  /** The reply a download ended on. */
  predicate EndedOn(run: Run, replies: seq<Reply>, reply: Reply) {
    0 < run.used <= |replies| && replies[run.used - 1] == reply
  }

  /** What each failure means: which reply it ended on, and that an error that can be retried was, retries times. */
  ghost predicate FailedFairly(job: Job, run: Run, replies: seq<Reply>, attempt: nat) {
    && run.used <= |replies|
    && (run.outcome == Raised(Gated) <==> EndedOn(run, replies, Refused(401)) || EndedOn(run, replies, Refused(403)))
    && (run.outcome == Raised(NotFound) <==> EndedOn(run, replies, Refused(404)))
    && (run.outcome.Raised? && run.outcome.failure.HttpError? ==>
          EndedOn(run, replies, Refused(run.outcome.failure.code)) && attempt + run.used > job.retries)
    && (run.outcome == Raised(NetworkError) ==>
          && run.used > 0 && attempt + run.used > job.retries
          && var last := replies[run.used - 1]; last.Unreachable? || (last.Body? && last.broken))
    && run.outcome != Raised(Offline)
    && (run.outcome == Raised(WrongHash) ==> job.sha256 != "" && run.files.part == None)
    && (run.outcome == Raised(WrongSize) ==> job.size.Some? && Have(run.files) != job.size.value)
  }

  lemma LandedFairly(job: Job, files: Files, replies: seq<Reply>, attempt: nat, used: nat)
    requires used == 0 || (used == 1 <= |replies| && !(replies[0] in {Refused(401), Refused(403), Refused(404)}))
    ensures FailedFairly(job, Landed(job, files, used), replies, attempt)
  {
  }

  /** Every failure of a download, against any server: a gated or missing file ends it at once, and no other
      error before it was retried as often as asked. */
  lemma {:induction false} RetriedEnough(job: Job, was: Files, replies: seq<Reply>, attempt: nat)
    ensures FailedFairly(job, Loop(job, was, replies, attempt), replies, attempt)
    decreases |replies|
  {
    hide Landed, Served, FailedFairly, TurnOf;
    var files := Trimmed(job, was);
    if job.size == Some(Have(files)) {
      LandedFairly(job, files, replies, attempt, 0);
    } else if replies == [] {
      WaitsFairly(job, files, attempt);
    } else {
      var served := Served(files, replies[0]);
      var turn := TurnOf(job, files, replies[0], attempt);
      if turn == Again {
        var rest := Loop(job, served, replies[1..], attempt + 1);
        RetriedEnough(job, served, replies[1..], attempt + 1);
        NothingUsed(job, served, replies[1..], attempt + 1);
        AgainMeans(job, files, replies[0], attempt);
        LaterFairly(job, rest, replies, attempt);
      } else {
        EndsFairly(job, files, replies, attempt, served);
      }
    }
  }

  lemma AgainMeans(job: Job, files: Files, reply: Reply, attempt: nat)
    requires TurnOf(job, files, reply, attempt) == Again
    ensures reply !in {Refused(401), Refused(403), Refused(404)}
  {
  }

  lemma WaitsFairly(job: Job, files: Files, attempt: nat)
    ensures FailedFairly(job, Run(files, Waiting, 0), [], attempt)
  {
  }

  lemma LaterFairly(job: Job, rest: Run, replies: seq<Reply>, attempt: nat)
    requires replies != [] && FailedFairly(job, rest, replies[1..], attempt + 1)
    requires rest.used == 0 ==>
               rest.outcome !in {Raised(Gated), Raised(NotFound), Raised(NetworkError)}
               && !(rest.outcome.Raised? && rest.outcome.failure.HttpError?)
    requires rest.used == 0 ==> replies[0] !in {Refused(401), Refused(403), Refused(404)}
    ensures FailedFairly(job, Used(rest), replies, attempt)
  {
    assert rest.used > 0 ==> replies[rest.used] == replies[1..][rest.used - 1];
  }

  lemma EndsFairly(job: Job, files: Files, replies: seq<Reply>, attempt: nat, served: Files)
    requires replies != [] && TurnOf(job, files, replies[0], attempt) != Again
    ensures var turn := TurnOf(job, files, replies[0], attempt);
            FailedFairly(job, if turn == Settled then Landed(job, served, 1) else Run(served, Raised(turn.failure), 1),
                         replies, attempt)
  {
    if TurnOf(job, files, replies[0], attempt) == Settled {
      LandedFairly(job, served, replies, attempt, 1);
    }
  }

  /** A loop that uses no reply raises nothing a reply can cause. */
  lemma NothingUsed(job: Job, was: Files, replies: seq<Reply>, attempt: nat)
    ensures var run := Loop(job, was, replies, attempt);
            run.used == 0 ==>
              run.outcome !in {Raised(Gated), Raised(NotFound), Raised(NetworkError)}
              && !(run.outcome.Raised? && run.outcome.failure.HttpError?)
  {
    LandedChecks(job, Trimmed(job, was), 0);
  }

  /** A failure that is retried. */
  predicate Retryable(reply: Reply) {
    match reply
    case Refused(code) => code !in {401, 403, 404, 416}
    case Unreachable => true
    case Body(_, _, broken) => broken
  }

  /** A reply after which the part file is the content: a body that brings what is missing, or the answer that nothing
      is. */
  predicate Completes(content: Bytes, have: nat, reply: Reply) {
    match reply
    case Refused(code) => code == 416 && have == |content| > 0
    case Unreachable => false
    case Body(status, chunks, broken) =>
      !broken && ((status == 200 && Received(chunks) == content)
                  || (status == 206 && have <= |content| && Received(chunks) == content[have..]))
  }

  /** Failures, each honest about what it brought, and a last reply that completes the content. */
  predicate CompletesAtLast(job: Job, was: Files, replies: seq<Reply>, content: Bytes)
    decreases |replies|
  {
    var files := Trimmed(job, was);
    && replies != []
    && if |replies| == 1 then Completes(content, Have(files), replies[0])
       else Retryable(replies[0]) && Honest(content, Have(files), replies[0])
            && CompletesAtLast(job, Served(files, replies[0]), replies[1..], content)
  }

  /** Up to retries failures of any kind that can be retried, and then a reply that completes the content: it lands. */
  lemma {:induction false} RetriesLand(job: Job, was: Files, replies: seq<Reply>, attempt: nat, content: Bytes)
    requires Wants(job, content) && Prefix(was.part, content) && !(job.size == Some(0) && was.part == None)
    requires CompletesAtLast(job, was, replies, content) && attempt + |replies| - 1 <= job.retries
    ensures var run := Loop(job, was, replies, attempt);
            run.outcome == Returned && run.files == Files(None, Some(content))
    decreases |replies|
  {
    hide Landed, Served;
    var files := Trimmed(job, was);
    assert files == was;
    if job.size == Some(Have(files)) {
      WholeLands(job, files, 0, content);
    } else if |replies| == 1 {
      CompletesWhole(job, files, replies[0], attempt, content);
      WholeLands(job, Served(files, replies[0]), 1, content);
    } else {
      ServedPrefix(files, replies[0], content);
      ServedGrows(job, files, replies[0]);
      RetriesAgain(job, files, replies[0], attempt);
      RetriesLand(job, Served(files, replies[0]), replies[1..], attempt + 1, content);
    }
  }

  lemma CompletesWhole(job: Job, files: Files, reply: Reply, attempt: nat, content: Bytes)
    requires Wants(job, content) && Prefix(files.part, content) && Completes(content, Have(files), reply)
    ensures TurnOf(job, files, reply, attempt) == Settled
    ensures Served(files, reply).part == Some(content)
  {
    hide Received;
    if reply.Body? {
      var got := Received(reply.chunks);
      assert [] + got == got && content[0..] == content;
      if Have(files) > 0 && reply.status != 200 {
        assert files.part.value == content[..Have(files)];
        assert content[..Have(files)] + content[Have(files)..] == content;
      }
      assert Grown(files, reply) == content;
    } else {
      assert files.part.value == content;
    }
  }

  lemma RetriesAgain(job: Job, files: Files, reply: Reply, attempt: nat)
    requires Retryable(reply) && attempt < job.retries
    ensures TurnOf(job, files, reply, attempt) == Again
  {
  }

  /** The bytes of bodies that resume. */
  function Brought(replies: seq<Reply>): nat {
    if replies == [] then 0
    else (if replies[0].Body? then |Received(replies[0].chunks)| else 0) + Brought(replies[1..])
  }

  /** What a download that did not end has brought so far is in its part file, for the next one to resume from. */
  lemma {:induction false} BytesKept(job: Job, was: Files, replies: seq<Reply>, attempt: nat)
    requires forall k :: 0 <= k < |replies| && replies[k].Body? ==> replies[k].status != 200
    requires job.size == None
    ensures var run := Loop(job, was, replies, attempt);
            run.used <= |replies|
            && (run.outcome in {Waiting, Raised(NetworkError)} ==>
                  Have(run.files) == Have(was) + Brought(replies[..run.used]))
    decreases |replies|
  {
    hide Landed, Received;
    LoopLands(job, was, replies, attempt);
    if replies != [] {
      var served := Served(was, replies[0]);
      ServedMore(was, replies[0]);
      LandedChecks(job, served, 1);
      LandedNetwork(job, served, 1);
      var rest := Loop(job, served, replies[1..], attempt + 1);
      LoopLands(job, served, replies[1..], attempt + 1);
      assert replies[..1] == [replies[0]] && Brought(replies[..1][1..]) == 0;
      assert replies[..rest.used + 1][1..] == replies[1..][..rest.used];
      if TurnOf(job, was, replies[0], attempt) == Again {
        BytesKept(job, served, replies[1..], attempt + 1);
      }
    }
  }

  lemma LandedNetwork(job: Job, files: Files, used: nat)
    ensures Landed(job, files, used).outcome != Raised(NetworkError)
  {
  }

  lemma ServedMore(files: Files, reply: Reply)
    requires reply.Body? ==> reply.status != 200
    ensures Have(Served(files, reply)) == Have(files) + if reply.Body? then |Received(reply.chunks)| else 0
  {
  }

  /** A part file longer than the content asked for is dropped before anything is asked. */
  lemma OversizeDropped(job: Job, was: Files, replies: seq<Reply>, attempt: nat)
    requires job.size.Some? && was.part.Some? && |was.part.value| > job.size.value
    ensures Loop(job, was, replies, attempt) == Loop(job, was.(part := None), replies, attempt)
  {
    hide Landed, TurnOf, Served;
  }

  /** Nothing is asked for a file that is there with its hash, nor offline; and with no hash nothing counts as there. */
  lemma NothingAsked(job: Job, files: Files, replies: seq<Reply>)
    ensures var run := Downloaded(job, files, replies);
            var there := files.dest.Some? && job.sha256 != "" && job.hash(files.dest.value) == job.sha256;
            && (there ==> run == Run(files, Returned, 0))
            && (!there && job.offline ==> run == Run(files, Raised(Offline), 0))
            && (!there && !job.offline && job.size == None && replies != [] ==> run.used > 0)
  {
    hide Landed, TurnOf, Served;
    LandedUsedOne(job, Served(Trimmed(job, files), if replies == [] then Unreachable else replies[0]));
  }

  lemma LandedUsedOne(job: Job, files: Files)
    ensures Landed(job, files, 1).used == 1
  {
  }

  /** The bodies that end short without raising and leave a part file no longer than it was. */
  function Stalls(job: Job, was: Files, replies: seq<Reply>, attempt: nat): nat
    decreases |replies|
  {
    var files := Trimmed(job, was);
    if replies == [] || job.size == Some(Have(files)) || TurnOf(job, files, replies[0], attempt) != Again then 0
    else
      var served := Served(files, replies[0]);
      (if !Raises(replies[0]) && Have(served) <= Have(files) then 1 else 0)
      + Stalls(job, served, replies[1..], attempt + 1)
  }

  function SizeOr(job: Job): nat { if job.size.Some? then job.size.value else 0 }

  /** The termination measure: the retries left, then the bytes missing. */
  function Bound(job: Job, have: nat, attempt: nat): int {
    if attempt < job.retries then job.retries - attempt + SizeOr(job) else Max(0, SizeOr(job) - have)
  }

  /** Each turn brings the measure down, but a stall may put it back by the size. */
  lemma TurnBound(job: Job, files: Files, reply: Reply, attempt: nat)
    requires files == Trimmed(job, files) && job.size != Some(Have(files))
    requires TurnOf(job, files, reply, attempt) == Again
    ensures var served := Served(files, reply);
            Bound(job, Have(Trimmed(job, served)), attempt + 1) + 1
              <= Bound(job, Have(files), attempt)
                 + if !Raises(reply) && Have(served) <= Have(files) then SizeOr(job) else 0
  {
    hide Grown;
  }

  lemma {:induction false} LoopStalls(job: Job, was: Files, replies: seq<Reply>, attempt: nat)
    requires Loop(job, was, replies, attempt).outcome == Waiting
    ensures |replies| <= Bound(job, Have(Trimmed(job, was)), attempt) + Stalls(job, was, replies, attempt) * SizeOr(job)
    decreases |replies|
  {
    hide TurnOf, Served, Landed, Bound, SizeOr, Raises;
    var files := Trimmed(job, was);
    if replies == [] {
      BoundSign(job, Have(files), attempt);
    } else if job.size == Some(Have(files)) {
      LandedChecks(job, files, 0);
      assert false;
    } else {
      var served := Served(files, replies[0]);
      LandedChecks(job, served, 1);
      LoopStalls(job, served, replies[1..], attempt + 1);
      TurnBound(job, files, replies[0], attempt);
      var stall := if !Raises(replies[0]) && Have(served) <= Have(files) then 1 else 0;
      Distribute(stall, Stalls(job, served, replies[1..], attempt + 1), SizeOr(job));
    }
  }

  lemma BoundSign(job: Job, have: nat, attempt: nat)
    ensures Bound(job, have, attempt) >= 0
  {
  }

  lemma Distribute(stall: nat, stalls: nat, size: nat)
    requires stall <= 1
    ensures (stall + stalls) * size == (if stall == 1 then size else 0) + stalls * size
  {
  }

  /** A download still waiting after n replies has met a stall for every size replies beyond retries + size. */
  lemma WaitingStalls(job: Job, files: Files, replies: seq<Reply>)
    requires Downloaded(job, files, replies).outcome == Waiting
    ensures |replies| <= Max(0, job.retries) + (1 + Stalls(job, files, replies, 0)) * SizeOr(job)
  {
    LoopStalls(job, files, replies, 0);
    Distribute(1, Stalls(job, files, replies, 0), SizeOr(job));
  }

  /** With progress on every short body, a download settles within retries + size + 1 replies. */
  lemma DownloadSettles(job: Job, files: Files, replies: seq<Reply>)
    requires Stalls(job, files, replies, 0) == 0 && |replies| > Max(0, job.retries) + SizeOr(job)
    ensures Downloaded(job, files, replies).outcome != Waiting
  {
    if Downloaded(job, files, replies).outcome == Waiting {
      WaitingStalls(job, files, replies);
    }
  }

  /** Without progress it need not: short empty replies are retried for ever, whatever retries is. */
  lemma {:induction false} ShortRepliesForever(job: Job, replies: seq<Reply>, attempt: nat)
    requires job.size.Some? && job.size.value > 0
    requires forall k :: 0 <= k < |replies| ==> replies[k] == Body(200, [], false)
    ensures Loop(job, Files(Some([]), None), replies, attempt).outcome == Waiting
    decreases |replies|
  {
    if replies != [] {
      var files := Files(Some([]), None);
      assert Grown(files, replies[0]) == [];
      ShortRepliesForever(job, replies[1..], attempt + 1);
    }
  }
}
