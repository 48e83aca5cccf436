/** py/hfget.py's pull: a pool of workers filling a content-addressed cache,
    one download per blob, then the snapshot's links and the ref. */
module HubCache {
  import opened Prelude
  import opened Fetch

  /** One file of the listing: its blob is its sha256 when it has one (LFS), else its git blob id. */
  datatype FileSpec = FileSpec(path: string, size: Option<nat>, sha256: string, blob: string)

  /** The two hashes a blob can be checked against. */
  datatype Hashes = Hashes(sha256: Bytes -> string, git: Bytes -> string)

  predicate WellListed(f: FileSpec) { f.sha256 != "" ==> f.blob == f.sha256 }

  /** These bytes have the hash the listing gives for f. */
  predicate Matches(h: Hashes, f: FileSpec, bytes: Bytes) {
    if f.sha256 != "" then h.sha256(bytes) == f.sha256 else h.git(bytes) == f.blob
  }

  /** A snapshot path: a link to a blob, or, without symlinks, a copy of one. */
  datatype Link = ToBlob(blob: string) | Copied(bytes: Bytes)

  datatype Cache = Cache(blobs: map<string, Bytes>, parts: map<string, Bytes>, links: map<string, Link>,
        ref: Option<string>)

  function BytesAt(c: Cache, path: string): Option<Bytes> {
    if path !in c.links then None
    else if c.links[path].Copied? then Some(c.links[path].bytes)
    else if c.links[path].blob in c.blobs then Some(c.blobs[c.links[path].blob])
    else None
  }

  // -------------------------------------------------------- distinct blobs --

  /** blobs.setdefault over the chosen files: the first file of each blob. */
  function FirstOf(chosen: seq<FileSpec>): map<string, FileSpec> {
    if chosen == [] then map[]
    else
      var before, f := FirstOf(chosen[..|chosen| - 1]), chosen[|chosen| - 1];
      if f.blob in before then before else before[f.blob := f]
  }

  lemma {:induction false} FirstOfKeys(chosen: seq<FileSpec>)
    ensures forall f :: f in chosen ==> f.blob in FirstOf(chosen)
    ensures forall b :: b in FirstOf(chosen) ==> FirstOf(chosen)[b] in chosen && FirstOf(chosen)[b].blob == b
  {
    if chosen != [] {
      FirstOfKeys(chosen[..|chosen| - 1]);
      assert chosen == chosen[..|chosen| - 1] + [chosen[|chosen| - 1]];
    }
  }

  /** The file a blob is fetched as is the first of the files that share it. */
  lemma {:induction false} FirstOfIs(chosen: seq<FileSpec>, k: nat)
    requires k < |chosen| && forall j :: 0 <= j < k ==> chosen[j].blob != chosen[k].blob
    ensures chosen[k].blob in FirstOf(chosen) && FirstOf(chosen)[chosen[k].blob] == chosen[k]
  {
    var init := chosen[..|chosen| - 1];
    if k < |init| {
      FirstOfIs(init, k);
    } else {
      FirstOfKeys(init);
      assert chosen[k].blob !in FirstOf(init);
    }
  }

  /** One download per blob, however many paths share it; a file without a hash stops the pull. */
  method DistinctBlobs(chosen: seq<FileSpec>) returns (r: Result<map<string, FileSpec>, FileSpec>)
    ensures r.Ok? <==> forall f :: f in chosen ==> f.blob != ""
    ensures r.Ok? ==> r.value == FirstOf(chosen)
    ensures r.Err? ==> r.error in chosen && r.error.blob == ""
  {
    var blobs: map<string, FileSpec> := map[];
    for k := 0 to |chosen|
      invariant blobs == FirstOf(chosen[..k])
      invariant forall j :: 0 <= j < k ==> chosen[j].blob != ""
    {
      if chosen[k].blob == "" {
        return Err(chosen[k]);
      }
      assert chosen[..k + 1][..k] == chosen[..k];
      if chosen[k].blob !in blobs {
        blobs := blobs[chosen[k].blob := chosen[k]];
      }
    }
    assert chosen[..|chosen|] == chosen;
    r := Ok(blobs);
  }

  // ---------------------------------------------------------------- workers --

  /** A blob's worker: before its exists test, downloading, landed but not checked against git, over. */
  datatype Phase = Queued | Downloading | Unchecked | Done | Errored

  /** asked counts, for each blob, the downloads begun. */
  datatype Pool = Pool(cache: Cache, phase: map<string, Phase>, asked: map<string, nat>)

  /** One atomic step of one worker; a download meets some replies and lands, fails or is still at it. */
  datatype Step = Check(blob: string) | Fetch(blob: string, replies: seq<Reply>) | Verify(blob: string)

  function JobOf(h: Hashes, f: FileSpec, retries: int, offline: bool): Job {
    Job(f.sha256, f.size, retries, offline, h.sha256)
  }

  datatype Setup = Setup(h: Hashes, jobs: map<string, FileSpec>, retries: int, offline: bool)

  function FilesOf(c: Cache, blob: string): Files {
    Files(if blob in c.parts then Some(c.parts[blob]) else None, if blob in c.blobs then Some(c.blobs[blob]) else None)
  }

  function Put(m: map<string, Bytes>, key: string, value: Option<Bytes>): map<string, Bytes> {
    if value.Some? then m[key := value.value] else m - {key}
  }

  function Start(cache: Cache, jobs: map<string, FileSpec>): Pool {
    Pool(cache, map b | b in jobs :: Queued, map b | b in jobs :: 0)
  }

  predicate Enabled(s: Setup, p: Pool, step: Step) {
    && step.blob in s.jobs && step.blob in p.phase && step.blob in p.asked
    && match step
       case Check(b) => p.phase[b] == Queued
       case Fetch(b, _) => p.phase[b] == Downloading
       case Verify(b) => p.phase[b] == Unchecked
  }

  function Next(s: Setup, p: Pool, step: Step): Pool
    requires Enabled(s, p, step)
  {
    var b, f := step.blob, s.jobs[step.blob];
    match step
    case Check(_) =>
      if b in p.cache.blobs then p.(phase := p.phase[b := Done])
      else p.(phase := p.phase[b := Downloading], asked := p.asked[b := p.asked[b] + 1])
    case Fetch(_, replies) =>
      var run := Downloaded(JobOf(s.h, f, s.retries, s.offline), FilesOf(p.cache, b), replies);
      var cache := p.cache.(blobs := Put(p.cache.blobs, b, run.files.dest),
            parts := Put(p.cache.parts, b, run.files.part));
      Pool(cache,
           if run.outcome == Waiting then p.phase
           else if run.outcome.Raised? then p.phase[b := Errored]
           else p.phase[b := if f.sha256 != "" then Done else Unchecked],
           p.asked)
    case Verify(_) =>
      if b in p.cache.blobs && s.h.git(p.cache.blobs[b]) == f.blob then p.(phase := p.phase[b := Done])
      else p.(cache := p.cache.(blobs := p.cache.blobs - {b}), phase := p.phase[b := Errored])
  }

  /** Any interleaving of the workers' steps. */
  ghost predicate Runs(s: Setup, p: Pool, steps: seq<Step>, q: Pool)
    decreases |steps|
  {
    if steps == [] then p == q
    else Enabled(s, p, steps[0]) && Runs(s, Next(s, p, steps[0]), steps[1..], q)
  }

  /** A setup as pull makes it: a job per blob, each listed with its hash. */
  predicate Sound(s: Setup) {
    forall b :: b in s.jobs ==> s.jobs[b].blob == b && b != "" && WellListed(s.jobs[b])
  }

  /** Blobs of this pull already in the cache have their hashes. */
  predicate VerifiedCache(s: Setup, c: Cache) {
    forall b :: b in s.jobs && b in c.blobs ==> Matches(s.h, s.jobs[b], c.blobs[b])
  }

  /** What one worker's blob is worth in each phase. */
  predicate Worker(s: Setup, p: Pool, b: string)
    requires b in s.jobs && b in p.phase && b in p.asked
  {
    var there := b in p.cache.blobs;
    match p.phase[b]
    case Queued => p.asked[b] == 0 && (there ==> Matches(s.h, s.jobs[b], p.cache.blobs[b]))
    case Downloading => p.asked[b] == 1 && !there
    case Unchecked => p.asked[b] == 1 && there && s.jobs[b].sha256 == ""
    case Done => p.asked[b] <= 1 && there && Matches(s.h, s.jobs[b], p.cache.blobs[b])
    case Errored => p.asked[b] == 1 && !there
  }

  predicate Inv(s: Setup, cache: Cache, p: Pool) {
    && p.phase.Keys == s.jobs.Keys && p.asked.Keys == s.jobs.Keys
    && (forall b :: b in s.jobs ==> Worker(s, p, b))
    && p.cache.links == cache.links && p.cache.ref == cache.ref
    && (forall b :: b in cache.blobs ==> b in p.cache.blobs && p.cache.blobs[b] == cache.blobs[b])
    && (forall b :: b in p.cache.blobs ==> b in cache.blobs || b in s.jobs)
    && (forall b :: b in s.jobs && b in cache.blobs ==> p.phase[b] == Queued || p.phase[b] == Done)
  }

  lemma StartInv(s: Setup, cache: Cache)
    requires Sound(s) && VerifiedCache(s, cache)
    ensures Inv(s, cache, Start(cache, s.jobs))
  {
  }

  /** A step touches its own blob only. */
  ghost predicate Local(s: Setup, p: Pool, q: Pool, b: string) {
    && q.phase.Keys == p.phase.Keys && q.asked.Keys == p.asked.Keys
    && q.cache.links == p.cache.links && q.cache.ref == p.cache.ref
    && (forall o :: o in p.phase && o != b ==> q.phase[o] == p.phase[o])
    && (forall o :: o in p.asked && o != b ==> q.asked[o] == p.asked[o])
    && (forall o :: o != b ==> (o in q.cache.blobs <==> o in p.cache.blobs))
    && (forall o :: o != b && o in p.cache.blobs ==> q.cache.blobs[o] == p.cache.blobs[o])
  }

  lemma NextLocal(s: Setup, p: Pool, step: Step)
    requires Enabled(s, p, step)
    ensures Local(s, p, Next(s, p, step), step.blob)
  {
    hide Downloaded;
  }

  lemma NextWorker(s: Setup, p: Pool, step: Step)
    requires Sound(s) && Enabled(s, p, step) && Worker(s, p, step.blob)
    ensures var q := Next(s, p, step);
            step.blob in q.phase && step.blob in q.asked && Worker(s, q, step.blob)
    ensures step.blob in p.cache.blobs && p.phase[step.blob] == Queued ==> Next(s, p, step).phase[step.blob] == Done
  {
    hide Downloaded;
    var b := step.blob;
    if step.Fetch? {
      var job, files := JobOf(s.h, s.jobs[b], s.retries, s.offline), FilesOf(p.cache, b);
      OnlyVerifiedLands(job, files, step.replies);
      assert files.dest == None;
    }
  }

  lemma NextInv(s: Setup, cache: Cache, p: Pool, step: Step)
    requires Sound(s) && Inv(s, cache, p) && Enabled(s, p, step)
    ensures Inv(s, cache, Next(s, p, step))
  {
    hide Next, Enabled;
    var b, q := step.blob, Next(s, p, step);
    StepAllowed(s, p, step);
    NextLocal(s, p, step);
    NextWorker(s, p, step);
    WorkersKept(s, cache, p, q, b);
    hide Worker;
  }

  lemma WorkersKept(s: Setup, cache: Cache, p: Pool, q: Pool, b: string)
    requires Inv(s, cache, p) && Local(s, p, q, b) && b in s.jobs && b in q.phase && b in q.asked && Worker(s, q, b)
    ensures forall o :: o in s.jobs ==> o in q.phase && o in q.asked && Worker(s, q, o)
  {
    hide Worker;
    forall o | o in s.jobs
      ensures o in q.phase && o in q.asked && Worker(s, q, o)
    {
      if o != b {
        OthersKept(s, p, q, b, o);
      }
    }
  }

  lemma OthersKept(s: Setup, p: Pool, q: Pool, b: string, o: string)
    requires Local(s, p, q, b) && o != b && o in s.jobs && o in p.phase && o in p.asked && Worker(s, p, o)
    ensures o in q.phase && o in q.asked && Worker(s, q, o)
  {
  }

  lemma StepAllowed(s: Setup, p: Pool, step: Step)
    requires Enabled(s, p, step)
    ensures step.blob in s.jobs && step.blob in p.phase && step.blob in p.asked && p.phase[step.blob] != Done
    ensures p.phase[step.blob] == Queued <==> step.Check?
    ensures step.Check? ==> Next(s, p, step).cache == p.cache
  {
  }

  lemma {:induction false} RunsInv(s: Setup, cache: Cache, p: Pool, steps: seq<Step>, q: Pool)
    requires Sound(s) && Inv(s, cache, p) && Runs(s, p, steps, q)
    ensures Inv(s, cache, q)
    decreases |steps|
  {
    if steps != [] {
      NextInv(s, cache, p, steps[0]);
      RunsInv(s, cache, Next(s, p, steps[0]), steps[1..], q);
    }
  }

  // ---------------------------------------------------- links and the ref --

  /** link_file: a link to the blob already there stays; anything else is replaced, by a copy where links
      cannot be made. */
  function LinkFor(c: Cache, f: FileSpec, canLink: bool): Link {
    if f.path in c.links && c.links[f.path] == ToBlob(f.blob) then ToBlob(f.blob)
    else if canLink || f.blob !in c.blobs then ToBlob(f.blob)
    else Copied(c.blobs[f.blob])
  }

  function LinkedAll(c: Cache, chosen: seq<FileSpec>, canLink: bool): Cache {
    if chosen == [] then c
    else
      var before, f := LinkedAll(c, chosen[..|chosen| - 1], canLink), chosen[|chosen| - 1];
      before.(links := before.links[f.path := LinkFor(before, f, canLink)])
  }

  /** A branch or tag names a commit; a commit names itself. */
  predicate IsCommit(revision: string) {
    |revision| == 40 && forall k :: 0 <= k < 40 ==> revision[k] in "0123456789abcdef"
  }

  function WithRef(c: Cache, revision: string, commit: string): Cache {
    if IsCommit(revision) then c else c.(ref := Some(commit))
  }

  /** link_file. */
  method LinkFile(c: Cache, f: FileSpec, canLink: bool) returns (linked: Cache)
    ensures linked == c.(links := c.links[f.path := LinkFor(c, f, canLink)])
  {
    if f.path in c.links && c.links[f.path] == ToBlob(f.blob) {
      assert c.links[f.path := ToBlob(f.blob)] == c.links;
      return c;
    }
    assert (c.links - {f.path})[f.path := LinkFor(c, f, canLink)] == c.links[f.path := LinkFor(c, f, canLink)];
    linked := c.(links := c.links - {f.path});
    linked := linked.(links := linked.links[f.path := if canLink || f.blob !in linked.blobs then ToBlob(f.blob)
                                                      else Copied(linked.blobs[f.blob])]);
  }

  method LinkAll(c: Cache, chosen: seq<FileSpec>, canLink: bool) returns (linked: Cache)
    ensures linked == LinkedAll(c, chosen, canLink)
  {
    assert chosen[..0] == [] && LinkedAll(c, [], canLink) == c;
    hide LinkedAll, LinkFor;
    linked := c;
    for k := 0 to |chosen|
      invariant linked == LinkedAll(c, chosen[..k], canLink)
    {
      LinkedNext(c, chosen[..k], chosen[k], canLink);
      assert chosen[..k] + [chosen[k]] == chosen[..k + 1];
      linked := LinkFile(linked, chosen[k], canLink);
    }
    assert chosen[..|chosen|] == chosen;
  }

  /** What pull makes of the cache once every worker is over: links and the ref, or, after any failure, nothing. */
  function Finished(p: Pool, chosen: seq<FileSpec>, revision: string, commit: string, canLink: bool)
      : Result<Cache, Cache> {
    if exists b :: b in p.phase && p.phase[b] == Errored then Err(p.cache)
    else Ok(WithRef(LinkedAll(p.cache, chosen, canLink), revision, commit))
  }

  predicate Over(p: Pool) {
    forall b :: b in p.phase ==> p.phase[b] == Done || p.phase[b] == Errored
  }

  /** A listing names a path once. */
  predicate OnePerPath(chosen: seq<FileSpec>) {
    forall i, j :: 0 <= i < j < |chosen| && chosen[i].path == chosen[j].path ==> chosen[i] == chosen[j]
  }

  /** Links agree but at the chosen paths. */
  ghost predicate SameElsewhere(a: map<string, Link>, b: map<string, Link>, chosen: seq<FileSpec>) {
    forall path :: (forall f :: f in chosen ==> f.path != path) ==>
      (path in a <==> path in b) && (path in b ==> a[path] == b[path])
  }

  lemma {:induction false} LinkedReads(c: Cache, chosen: seq<FileSpec>, canLink: bool)
    requires OnePerPath(chosen)
    requires forall f :: f in chosen ==> f.blob in c.blobs
    ensures var l := LinkedAll(c, chosen, canLink);
            && l.blobs == c.blobs && l.ref == c.ref
            && (forall f :: f in chosen ==> BytesAt(l, f.path) == Some(c.blobs[f.blob]))
            && SameElsewhere(l.links, c.links, chosen)
  {
    if chosen != [] {
      var init, f := chosen[..|chosen| - 1], chosen[|chosen| - 1];
      assert chosen == init + [f];
      LinkedReads(c, init, canLink);
      LinkOne(LinkedAll(c, init, canLink), f, canLink);
      hide LinkFor, LinkedAll, BytesAt, SameElsewhere;
      var before, after := LinkedAll(c, init, canLink), LinkedAll(c, chosen, canLink);
      LinkedNext(c, init, f, canLink);
      assert after == before.(links := before.links[f.path := LinkFor(before, f, canLink)]);
      forall g | g in chosen
        ensures BytesAt(after, g.path) == Some(c.blobs[g.blob])
      {
        if g.path == f.path {
          assert g == f;
        } else {
          assert g in init;
        }
      }
      Elsewhere(after.links, before.links, c.links, init, f);
    }
  }

  lemma LinkedNext(c: Cache, init: seq<FileSpec>, f: FileSpec, canLink: bool)
    ensures var before := LinkedAll(c, init, canLink);
            LinkedAll(c, init + [f], canLink) == before.(links := before.links[f.path := LinkFor(before, f, canLink)])
  {
    assert (init + [f])[..|init|] == init;
  }

  /** A link reads the bytes of its blob; what other paths read stays. */
  lemma LinkOne(c: Cache, f: FileSpec, canLink: bool)
    requires f.blob in c.blobs
    ensures var after := c.(links := c.links[f.path := LinkFor(c, f, canLink)]);
            BytesAt(after, f.path) == Some(c.blobs[f.blob])
            && forall path :: path != f.path ==> BytesAt(after, path) == BytesAt(c, path)
  {
  }

  lemma Elsewhere(after: map<string, Link>, before: map<string, Link>, links: map<string, Link>, init: seq<FileSpec>,
                  f: FileSpec)
    requires SameElsewhere(before, links, init)
    requires forall path :: path != f.path ==>
             (path in after <==> path in before) && (path in before ==> after[path] == before[path])
    ensures SameElsewhere(after, links, init + [f])
  {
    forall path | forall g :: g in init + [f] ==> g.path != path
      ensures (path in after <==> path in links) && (path in links ==> after[path] == links[path])
    {
      assert f in init + [f];
      assert forall g :: g in init ==> g in init + [f];
    }
  }

  /** The setup pull makes of the chosen files. */
  function SetupOf(h: Hashes, chosen: seq<FileSpec>, retries: int, offline: bool): Setup {
    Setup(h, FirstOf(chosen), retries, offline)
  }

  /** Two files of one blob are listed with the same hash: a sha256 and a git id never coincide. */
  predicate SameHash(chosen: seq<FileSpec>) {
    && (forall f :: f in chosen ==> f.blob != "" && WellListed(f))
    && (forall f, g :: f in chosen && g in chosen && f.blob == g.blob ==> f.sha256 == g.sha256)
  }

  /** In every interleaving of the workers, from a cache whose blobs are verified: each blob is downloaded at most
      once; if no worker failed every chosen path reads bytes with its listed hash, other paths are untouched, and
      the ref names the commit; if any failed no link and no ref changed; and no blob is ever lost or altered. */
  lemma PullIsSafe(h: Hashes, chosen: seq<FileSpec>, retries: int, offline: bool, cache: Cache, steps: seq<Step>,
                   q: Pool, revision: string, commit: string, canLink: bool)
    requires SameHash(chosen) && OnePerPath(chosen)
    requires var s := SetupOf(h, chosen, retries, offline);
             VerifiedCache(s, cache) && Runs(s, Start(cache, s.jobs), steps, q) && Over(q)
    ensures forall b :: b in q.asked ==> q.asked[b] <= 1
    ensures forall b :: b in cache.blobs ==> b in q.cache.blobs && q.cache.blobs[b] == cache.blobs[b]
    ensures match Finished(q, chosen, revision, commit, canLink)
            case Ok(after) =>
              && (forall f :: f in chosen ==>
                    BytesAt(after, f.path).Some? && Matches(h, f, BytesAt(after, f.path).value))
              && SameElsewhere(after.links, cache.links, chosen)
              && (|revision| == 40
                  && (forall k :: 0 <= k < 40 ==> '0' <= revision[k] <= '9' || 'a' <= revision[k] <= 'f')
                  ==> after.ref == cache.ref)
              && (|revision| != 40
                  || (exists k :: 0 <= k < 40 && !('0' <= revision[k] <= '9' || 'a' <= revision[k] <= 'f'))
                  ==> after.ref == Some(commit))
            case Err(after) => after.links == cache.links && after.ref == cache.ref
  {
    hide Runs, SameElsewhere, Matches, FirstOf, Inv, Sound, VerifiedCache, LinkedAll, BytesAt, OnePerPath, SameHash,
         IsCommit;
    var s := SetupOf(h, chosen, retries, offline);
    CommitIs(revision);
    SetupSound(h, chosen, retries, offline);
    StartInv(s, cache);
    RunsInv(s, cache, Start(cache, s.jobs), steps, q);
    InvMeans(s, cache, q);
    if forall b :: b in q.phase ==> q.phase[b] != Errored {
      AllMatch(h, chosen, retries, offline, cache, q);
      LinkedReads(q.cache, chosen, canLink);
      RefReads(LinkedAll(q.cache, chosen, canLink), revision, commit);
    }
  }

  lemma CommitIs(revision: string)
    ensures IsCommit(revision) <==>
              |revision| == 40 && forall k :: 0 <= k < 40 ==> '0' <= revision[k] <= '9' || 'a' <= revision[k] <= 'f'
  {
  }

  lemma RefReads(c: Cache, revision: string, commit: string)
    ensures forall path :: BytesAt(WithRef(c, revision, commit), path) == BytesAt(c, path)
  {
  }

  lemma SetupSound(h: Hashes, chosen: seq<FileSpec>, retries: int, offline: bool)
    requires SameHash(chosen)
    ensures Sound(SetupOf(h, chosen, retries, offline))
  {
    FirstOfKeys(chosen);
  }

  lemma InvMeans(s: Setup, cache: Cache, q: Pool)
    requires Inv(s, cache, q)
    ensures forall b :: b in q.asked ==> q.asked[b] <= 1
    ensures forall b :: b in cache.blobs ==> b in q.cache.blobs && q.cache.blobs[b] == cache.blobs[b]
    ensures q.cache.links == cache.links && q.cache.ref == cache.ref
  {
    assert forall b :: b in q.asked ==> Worker(s, q, b);
  }

  /** With every worker done, every chosen file's blob is there and has the file's listed hash. */
  lemma AllMatch(h: Hashes, chosen: seq<FileSpec>, retries: int, offline: bool, cache: Cache, q: Pool)
    requires SameHash(chosen) && Inv(SetupOf(h, chosen, retries, offline), cache, q)
    requires forall b :: b in q.phase ==> q.phase[b] == Done
    ensures forall f :: f in chosen ==> f.blob in q.cache.blobs && Matches(h, f, q.cache.blobs[f.blob])
  {
    var s := SetupOf(h, chosen, retries, offline);
    FirstOfKeys(chosen);
    forall f | f in chosen
      ensures f.blob in q.cache.blobs && Matches(h, f, q.cache.blobs[f.blob])
    {
      assert f.blob in s.jobs && Worker(s, q, f.blob);
      assert s.jobs[f.blob] in chosen;
    }
  }

  // ------------------------------------------------------ when a pull succeeds --

  /** A step that fails: a download that raises, or a blob that git does not know by its name. */
  predicate Fails(s: Setup, p: Pool, step: Step)
    requires Enabled(s, p, step)
  {
    var b := step.blob;
    match step
    case Check(_) => false
    case Fetch(_, replies) =>
      Downloaded(JobOf(s.h, s.jobs[b], s.retries, s.offline), FilesOf(p.cache, b), replies).outcome.Raised?
    case Verify(_) => b !in p.cache.blobs || s.h.git(p.cache.blobs[b]) != s.jobs[b].blob
  }

  predicate SomeFails(s: Setup, p: Pool, steps: seq<Step>)
    decreases |steps|
  {
    && steps != [] && Enabled(s, p, steps[0])
    && (Fails(s, p, steps[0]) || SomeFails(s, Next(s, p, steps[0]), steps[1..]))
  }

  ghost predicate SomeErrored(p: Pool) { exists b :: b in p.phase && p.phase[b] == Errored }

  lemma StepErrors(s: Setup, p: Pool, step: Step)
    requires Enabled(s, p, step)
    ensures SomeErrored(Next(s, p, step)) <==> SomeErrored(p) || Fails(s, p, step)
  {
    hide Downloaded;
    var q, b := Next(s, p, step), step.blob;
    NextLocal(s, p, step);
    assert q.phase[b] == Errored <==> Fails(s, p, step);
    if SomeErrored(p) {
      var o :| o in p.phase && p.phase[o] == Errored;
      assert o != b && q.phase[o] == Errored;
    }
    if SomeErrored(q) {
      var o :| o in q.phase && q.phase[o] == Errored;
      assert o != b ==> p.phase[o] == Errored;
    }
  }

  lemma {:induction false} RunErrors(s: Setup, p: Pool, steps: seq<Step>, q: Pool)
    requires Runs(s, p, steps, q)
    ensures SomeErrored(q) <==> SomeErrored(p) || SomeFails(s, p, steps)
    decreases |steps|
  {
    hide Next, Fails, SomeErrored, Enabled;
    if steps != [] {
      StepErrors(s, p, steps[0]);
      RunErrors(s, Next(s, p, steps[0]), steps[1..], q);
    }
  }

  /** A pull whose workers are all over succeeds exactly when none of their steps failed: every download landed,
      and every blob checked against git matched. */
  lemma PullSucceedsWhen(s: Setup, cache: Cache, steps: seq<Step>, q: Pool, chosen: seq<FileSpec>, revision: string,
                         commit: string, canLink: bool)
    requires Runs(s, Start(cache, s.jobs), steps, q) && Over(q)
    ensures Finished(q, chosen, revision, commit, canLink).Ok? <==> !SomeFails(s, Start(cache, s.jobs), steps)
  {
    hide Runs, SomeFails;
    RunErrors(s, Start(cache, s.jobs), steps, q);
  }

  /** Workers that are not over can always go on. */
  lemma SomeStep(s: Setup, p: Pool) returns (step: Step)
    requires p.phase.Keys == s.jobs.Keys && p.asked.Keys == s.jobs.Keys && !Over(p)
    ensures Enabled(s, p, step)
  {
    var b :| b in p.phase && p.phase[b] != Done && p.phase[b] != Errored;
    step := if p.phase[b] == Queued then Check(b) else if p.phase[b] == Downloading then Fetch(b, []) else Verify(b);
  }

  /** A download that meets up to retries failures and then the rest of the content lands it, and its blob is
      done, or to be checked against git. */
  lemma FetchLands(s: Setup, p: Pool, b: string, replies: seq<Reply>, content: Bytes)
    requires Enabled(s, p, Fetch(b, replies)) && b !in p.cache.blobs && !s.offline
    requires var job, files := JobOf(s.h, s.jobs[b], s.retries, false), FilesOf(p.cache, b);
             && Wants(job, content) && Prefix(files.part, content) && !(job.size == Some(0) && files.part == None)
             && CompletesAtLast(job, files, replies, content) && |replies| - 1 <= s.retries
    ensures var q := Next(s, p, Fetch(b, replies));
            && !Fails(s, p, Fetch(b, replies)) && b in q.cache.blobs && q.cache.blobs[b] == content
            && q.phase == p.phase[b := if s.jobs[b].sha256 != "" then Done else Unchecked]
  {
    hide Loop, CompletesAtLast, Wants, Prefix;
    var job, files := JobOf(s.h, s.jobs[b], s.retries, false), FilesOf(p.cache, b);
    RetriesLand(job, files, replies, 0, content);
  }

  /** What a step leaves of part files: a download works on its own blob's, as it found it, and leaves it as it
      was left, for the next pull to resume; no other is touched. Offline nothing changes. */
  lemma PartsKept(s: Setup, p: Pool, step: Step)
    requires Enabled(s, p, step)
    ensures var b, f, q := step.blob, s.jobs[step.blob], Next(s, p, step);
            && (forall o :: o != b ==> (o in q.cache.parts <==> o in p.cache.parts))
            && (forall o :: o != b && o in p.cache.parts ==> q.cache.parts[o] == p.cache.parts[o])
            && (!step.Fetch? ==> q.cache.parts == p.cache.parts)
            && (step.Fetch? ==>
                  var was := Files(if b in p.cache.parts then Some(p.cache.parts[b]) else None,
                                   if b in p.cache.blobs then Some(p.cache.blobs[b]) else None);
                  var left := Downloaded(Job(f.sha256, f.size, s.retries, s.offline, s.h.sha256), was,
                                         step.replies).files.part;
                  && (b in q.cache.parts <==> left.Some?)
                  && (b in q.cache.parts ==> q.cache.parts[b] == left.value))
            && (step.Fetch? && s.offline && b !in p.cache.blobs ==>
                  q.cache == p.cache && q.phase[b] == Errored)
  {
    hide Loop;
    if step.Fetch? && s.offline && step.blob !in p.cache.blobs {
      assert Next(s, p, step).cache.parts == p.cache.parts && Next(s, p, step).cache.blobs == p.cache.blobs;
    }
  }

  /** What the links of a pull are: links to the blobs, or, where links cannot be made, copies of them, but for
      those that were right already. */
  lemma {:induction false} LinkKinds(c: Cache, chosen: seq<FileSpec>, canLink: bool, f: FileSpec)
    requires OnePerPath(chosen) && f in chosen && forall g :: g in chosen ==> g.blob in c.blobs
    ensures var l := LinkedAll(c, chosen, canLink);
            && f.path in l.links
            && (canLink || (f.path in c.links && c.links[f.path] == ToBlob(f.blob)) ==>
                  l.links[f.path] == ToBlob(f.blob))
            && (!canLink && !(f.path in c.links && c.links[f.path] == ToBlob(f.blob)) ==>
                  l.links[f.path] == Copied(c.blobs[f.blob]))
  {
    var init, last := chosen[..|chosen| - 1], chosen[|chosen| - 1];
    assert chosen == init + [last];
    LinkedReads(c, init, canLink);
    if f in init {
      LinkKinds(c, init, canLink, f);
      if last.path == f.path {
        assert last == f;
      }
    } else {
      PathOnce(chosen, init, last);
    }
    LinkLast(c, init, last, canLink);
  }

  lemma PathOnce(chosen: seq<FileSpec>, init: seq<FileSpec>, last: FileSpec)
    requires OnePerPath(chosen) && chosen == init + [last] && last !in init
    ensures forall g :: g in init ==> g.path != last.path
  {
    forall k | 0 <= k < |init|
      ensures init[k].path == last.path ==> init[k] == last
    {
      assert chosen[k] == init[k] && chosen[|init|] == last;
    }
  }

  /** What the last link is, and that it leaves the others. */
  lemma LinkLast(c: Cache, init: seq<FileSpec>, f: FileSpec, canLink: bool)
    ensures var before, l := LinkedAll(c, init, canLink), LinkedAll(c, init + [f], canLink);
            && f.path in l.links
            && (canLink || (f.path in before.links && before.links[f.path] == ToBlob(f.blob)) ==>
                  l.links[f.path] == ToBlob(f.blob))
            && (!canLink && f.blob in before.blobs
                && !(f.path in before.links && before.links[f.path] == ToBlob(f.blob)) ==>
                  l.links[f.path] == Copied(before.blobs[f.blob]))
            && forall path :: path != f.path ==>
                 && (path in l.links <==> path in before.links)
                 && (path in l.links ==> l.links[path] == before.links[path])
  {
    hide LinkedAll;
    LinkedNext(c, init, f, canLink);
  }

  // ------------------------------------------------------- empty files --

  /** A blob listed empty, not in the cache and with no empty part file: its worker has not come through. */
  predicate Hollow(s: Setup, p: Pool, b: string) {
    && b in s.jobs && s.jobs[b].size == Some(0) && b in p.phase && p.phase[b] in {Queued, Downloading, Errored}
    && b !in p.cache.blobs && (b in p.cache.parts ==> p.cache.parts[b] != [])
  }

  lemma HollowNext(s: Setup, p: Pool, step: Step, b: string)
    requires Hollow(s, p, b) && Enabled(s, p, step)
    ensures Hollow(s, Next(s, p, step), b)
  {
    hide Downloaded;
    if step.Fetch? && step.blob == b {
      EmptyNeverLands(JobOf(s.h, s.jobs[b], s.retries, s.offline), FilesOf(p.cache, b), step.replies);
    }
  }

  lemma EmptyNeverLands(job: Job, files: Files, replies: seq<Reply>)
    requires job.size == Some(0) && files.dest == None && files.part != Some([])
    ensures var run := Downloaded(job, files, replies);
            run.outcome.Raised? && run.files.dest == None && run.files.part != Some([])
  {
  }

  lemma {:induction false} HollowRuns(s: Setup, p: Pool, steps: seq<Step>, q: Pool, b: string)
    requires Hollow(s, p, b) && Runs(s, p, steps, q)
    ensures Hollow(s, q, b)
    decreases |steps|
  {
    hide Hollow, Next, Enabled;
    if steps != [] {
      HollowNext(s, p, steps[0], b);
      HollowRuns(s, Next(s, p, steps[0]), steps[1..], q, b);
    }
  }

  /** A pull of an empty file that is not in the cache fails, whatever the server does. */
  lemma EmptyFileFailsPull(s: Setup, cache: Cache, steps: seq<Step>, q: Pool, chosen: seq<FileSpec>, b: string,
                           revision: string, commit: string, canLink: bool)
    requires b in s.jobs && s.jobs[b].size == Some(0) && b !in cache.blobs
             && (b in cache.parts ==> cache.parts[b] != [])
    requires Runs(s, Start(cache, s.jobs), steps, q) && Over(q)
    ensures Finished(q, chosen, revision, commit, canLink).Err?
  {
    HollowRuns(s, Start(cache, s.jobs), steps, q, b);
    assert q.phase[b] == Errored;
  }
}
