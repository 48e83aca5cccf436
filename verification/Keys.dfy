/** gate/rackgate.py's Keys: clients cached from keys.json and re-read when its
    stamp changes, against rewrites that may come between stat and read. */
module Keys {
  import opened Prelude

  datatype Client = Client(name: string, models: seq<string>)

  type Clients = map<string, Client>

  /** st_mtime_ns and st_size. */
  datatype Stamp = Stamp(mtime: int, size: int)

  /** What a stat and a read of the file find at one time; a file that is not there has no stamp and reads as "". */
  datatype Version = Version(stamp: Option<Stamp>, text: string)

  datatype State = State(stamp: Option<Stamp>, byHash: Clients)

  const FRESH := State(None, map[])

  /** One element of the file's clients list; an empty field stands for one that is missing. */
  datatype Entry = Entry(name: string, sha256: string, models: seq<string>)

  /** The entries of a text, None when it is not JSON. */
  type Parser = string -> Option<seq<Entry>>

  /** A client that names no models may use them all. */
  function ClientOf(e: Entry): Client { Client(e.name, if e.models == [] then ["*"] else e.models) }

  /** The clients of a list of entries: those with a name and a hash, the last entry of a hash winning. */
  function Indexed(entries: seq<Entry>): Clients {
    if entries == [] then map[]
    else
      var e := entries[|entries| - 1];
      if e.sha256 == "" || e.name == "" then Indexed(entries[..|entries| - 1])
      else Indexed(entries[..|entries| - 1])[e.sha256 := ClientOf(e)]
  }

  /** What a text says; an empty or unreadable file reads as an empty object. */
  function Read(parse: Parser, text: string): Option<Clients> {
    var entries := parse(if text == "" then "{}" else text);
    if entries.Some? then Some(Indexed(entries.value)) else None
  }

  /** What _load leaves, given the stamp it saw and the text it would read. */
  function Loaded(parse: Parser, st: State, stamp: Option<Stamp>, text: string): State {
    if stamp == st.stamp then st
    else State(stamp, if Read(parse, text).Some? then Read(parse, text).value else st.byHash)
  }

  predicate Carries(e: Entry, hash: string) { e.sha256 == hash && hash != "" && e.name != "" }

  /** The last usable entry of a hash says which client it has: its name, and the models it names, or all of them. */
  lemma {:induction false} LastEntryWins(entries: seq<Entry>, hash: string, k: nat)
    requires k < |entries| && Carries(entries[k], hash) && forall j :: k < j < |entries| ==> !Carries(entries[j], hash)
    ensures hash in Indexed(entries)
    ensures var client := Indexed(entries)[hash];
            && client.name == entries[k].name
            && (entries[k].models == [] ==> client.models == ["*"])
            && (entries[k].models != [] ==> client.models == entries[k].models)
  {
    IndexedNext(entries, hash);
    hide Indexed, Carries;
    if k < |entries| - 1 {
      LastEntryWins(entries[..|entries| - 1], hash, k);
    }
  }

  /** A hash that no usable entry carries has none. */
  lemma {:induction false} NoEntryNoClient(entries: seq<Entry>, hash: string)
    requires forall k :: 0 <= k < |entries| ==> !Carries(entries[k], hash)
    ensures hash !in Indexed(entries)
  {
    if entries != [] {
      IndexedNext(entries, hash);
      hide Indexed, Carries;
      NoEntryNoClient(entries[..|entries| - 1], hash);
    }
  }

  lemma IndexedNext(entries: seq<Entry>, hash: string)
    requires entries != []
    ensures var before, e := Indexed(entries[..|entries| - 1]), entries[|entries| - 1];
            && (hash in Indexed(entries) <==> Carries(e, hash) || hash in before)
            && (hash in Indexed(entries) ==> Indexed(entries)[hash] == if Carries(e, hash) then ClientOf(e)
                 else before[hash])
  {
  }

  /** What a load leaves under a new stamp: the clients of the text, {} where it is empty; those it had where the text
      does not parse. Under the stamp it had, what it had. */
  lemma LoadSays(parse: Parser, st: State, stamp: Option<Stamp>, text: string)
    ensures stamp == st.stamp ==> Loaded(parse, st, stamp, text) == st
    ensures stamp != st.stamp ==> Loaded(parse, st, stamp, text).stamp == stamp
    ensures stamp != st.stamp && text == "" && parse("{}") == Some([]) ==>
              Loaded(parse, st, stamp, text).byHash == map[]
    ensures stamp != st.stamp && text != "" && parse(text).Some? ==>
              Loaded(parse, st, stamp, text).byHash == Indexed(parse(text).value)
    ensures stamp != st.stamp && text != "" && parse(text) == None ==>
              Loaded(parse, st, stamp, text).byHash == st.byHash
  {
  }

  class KeyFile {
    var stamp: Option<Stamp>
    var byHash: Clients

    ghost function View(): State
      reads this
    {
      State(stamp, byHash)
    }

    constructor ()
      ensures View() == FRESH
    {
      stamp, byHash := None, map[];
    }

    method Load(parse: Parser, seen: Option<Stamp>, text: string)
      modifies this
      ensures View() == Loaded(parse, old(View()), seen, text)
    {
      if seen == stamp {
        return;
      }
      var found := byHash;
      var entries := parse(if text == "" then "{}" else text);
      if entries.Some? {
        found := map[];
        for i := 0 to |entries.value|
          invariant found == Indexed(entries.value[..i])
        {
          var e := entries.value[i];
          assert entries.value[..i + 1][..i] == entries.value[..i];
          if e.sha256 != "" && e.name != "" {
            found := found[e.sha256 := Client(e.name, if e.models == [] then ["*"] else e.models)];
          }
        }
        assert entries.value[..|entries.value|] == entries.value;
      }
      byHash, stamp := found, seen;
    }

    /** client(key): looked up by its hash after a load. */
    method Find(parse: Parser, hash: string -> string, seen: Option<Stamp>, text: string, key: string)
      returns (client: Option<Client>)
      modifies this
      ensures View() == if key == "" then old(View()) else Loaded(parse, old(View()), seen, text)
      ensures client == if key != "" && hash(key) in byHash then Some(byHash[hash(key)]) else None
    {
      if key == "" {
        return None;
      }
      Load(parse, seen, text);
      client := if hash(key) in byHash then Some(byHash[hash(key)]) else None;
    }
  }

  /** One request: the version its stat saw, and the version its read would see, the same or later. */
  datatype Request = Request(stat: nat, read: nat)

  /** Requests over one file's versions, in time. */
  ghost predicate Timely(rs: seq<Request>, versions: seq<Version>) {
    && (forall k :: 0 <= k < |rs| ==> rs[k].stat <= rs[k].read < |versions|)
    && (forall i, k :: 0 <= i < k < |rs| ==> rs[i].read <= rs[k].stat)
  }

  ghost function After(parse: Parser, versions: seq<Version>, rs: seq<Request>): State
    requires Timely(rs, versions)
  {
    if rs == [] then FRESH
    else
      var last := rs[|rs| - 1];
      assert Timely(rs[..|rs| - 1], versions);
      Loaded(parse, After(parse, versions, rs[..|rs| - 1]), versions[last.stat].stamp, versions[last.read].text)
  }

  /** The cache's stamp is that of the version last loaded, its clients those of what was read with it, if that
      parsed. */
  ghost predicate Follows(parse: Parser, versions: seq<Version>, rs: seq<Request>, st: State, k: nat)
    requires Timely(rs, versions) && k < |rs|
  {
    && st.stamp == versions[rs[k].stat].stamp
    && (Read(parse, versions[rs[k].read].text).Some? ==> st.byHash == Read(parse, versions[rs[k].read].text).value)
  }

  /** Until a file is seen the cache is as new. */
  lemma {:induction false} CacheFollows(parse: Parser, versions: seq<Version>, rs: seq<Request>)
    returns (k: nat)
    requires Timely(rs, versions) && rs != []
    ensures After(parse, versions, rs) == FRESH
            || (k < |rs| && Follows(parse, versions, rs, After(parse, versions, rs), k))
  {
    var init, last := rs[..|rs| - 1], rs[|rs| - 1];
    assert Timely(init, versions);
    k := |rs| - 1;
    if init != [] {
      var j := CacheFollows(parse, versions, init);
      if After(parse, versions, init).stamp == versions[last.stat].stamp {
        k := j;
      }
    }
  }

  /** Each rewrite gets a stamp of its own. */
  ghost predicate FreshStamps(versions: seq<Version>) {
    forall i, j :: 0 <= i < j < |versions| && versions[i].stamp.Some? ==> versions[i].stamp != versions[j].stamp
  }

  /** Once the file has settled on a version that is there and parses, the next request answers as a fresh parse
      would. */
  lemma {:induction false} SettledIsFresh(parse: Parser, versions: seq<Version>, rs: seq<Request>)
    requires Timely(rs, versions) && FreshStamps(versions) && rs != []
    requires var last := rs[|rs| - 1];
             last.stat == last.read && versions[last.read].stamp.Some? && Read(parse, versions[last.read].text).Some?
    ensures After(parse, versions, rs).byHash == Read(parse, versions[rs[|rs| - 1].read].text).value
  {
    var init, last := rs[..|rs| - 1], rs[|rs| - 1];
    assert Timely(init, versions);
    if init != [] && After(parse, versions, init).stamp == versions[last.stat].stamp {
      var k := CacheFollows(parse, versions, init);
      assert rs[k].stat == last.stat && rs[k].read == last.read;
    }
  }

  /** A version that does not parse keeps the clients that worked, whenever it is loaded. */
  lemma {:induction false} UnparseableKeeps(parse: Parser, versions: seq<Version>, rs: seq<Request>, r: Request)
    requires Timely(rs + [r], versions) && Timely(rs, versions)
    requires r.read < |versions| && Read(parse, versions[r.read].text) == None
    ensures After(parse, versions, rs + [r]).byHash == After(parse, versions, rs).byHash
  {
    assert (rs + [r])[|rs|] == r;
    AfterSnoc(parse, versions, rs, r);
  }

  lemma {:induction false} AfterSnoc(parse: Parser, versions: seq<Version>, rs: seq<Request>, r: Request)
    requires Timely(rs, versions) && Timely(rs + [r], versions) && r.stat < |versions| && r.read < |versions|
    ensures After(parse, versions, rs + [r]) ==
            Loaded(parse, After(parse, versions, rs), versions[r.stat].stamp, versions[r.read].text)
  {
    assert (rs + [r])[..|rs|] == rs;
    assert (rs + [r])[|rs|] == r;
  }

  // --------------------------------------------------------- when stamps repeat, or the file comes and goes

  function Said(parse: Parser, versions: seq<Version>, r: nat): Option<Clients>
    requires r < |versions|
  {
    Read(parse, versions[r].text)
  }

  /** A request made once the file is as it stays. */
  function Settled(versions: seq<Version>): Request
    requires versions != []
  {
    Request(|versions| - 1, |versions| - 1)
  }

  /** Whatever came before, a request made once the file has settled answers as a fresh parse would. */
  ghost predicate AlwaysFresh(parse: Parser, versions: seq<Version>)
    requires versions != []
  {
    forall rs :: Timely(rs, versions) && rs != [] && rs[|rs| - 1] == Settled(versions) ==>
      Said(parse, versions, |versions| - 1) == Some(After(parse, versions, rs).byHash)
  }

  /** A file has been there by version i, so that a request can load what it reads. */
  ghost predicate Seen(versions: seq<Version>, i: nat)
    requires i < |versions|
  {
    exists a :: 0 <= a <= i && versions[a].stamp.Some?
  }

  /** What is read with stamp number i says what the last version says; if it does not parse, all that could be kept
      in its place says so too, the empty cache included. */
  ghost predicate Tells(parse: Parser, versions: seq<Version>, i: nat, r: nat)
    requires i <= r < |versions|
  {
    var now := Said(parse, versions, |versions| - 1);
    if Said(parse, versions, r).Some? then Said(parse, versions, r) == now
    else
      && now == Some(map[])
      && forall b :: 0 <= b <= i && Seen(versions, b) && Said(parse, versions, b).Some? ==>
         Said(parse, versions, b) == now
  }

  /** The last version's stamp stands for what it says, wherever it occurs; having no stamp stands for no clients. */
  ghost predicate StampsTell(parse: Parser, versions: seq<Version>)
    requires versions != []
  {
    var v := |versions| - 1;
    && (versions[v].stamp == None ==> Said(parse, versions, v) == Some(map[]))
    && forall i, r :: 0 <= i <= r <= v && versions[i].stamp == versions[v].stamp && Seen(versions, i) ==>
         Tells(parse, versions, i, r)
  }

  /** What a cache that StampsTell holds for can be after requests up to version t. */
  ghost predicate Sound(parse: Parser, versions: seq<Version>, st: State, t: nat)
    requires t < |versions|
  {
    && (st.stamp.Some? ==> Seen(versions, t))
    && (st.byHash == map[]
        || exists b :: 0 <= b <= t && Seen(versions, b) && Said(parse, versions, b) == Some(st.byHash))
    && (st.stamp == versions[|versions| - 1].stamp ==> Said(parse, versions, |versions| - 1) == Some(st.byHash))
  }

  lemma SoundStep(parse: Parser, versions: seq<Version>, st: State, t: nat, r: Request)
    requires t <= r.stat <= r.read < |versions| && StampsTell(parse, versions) && Sound(parse, versions, st, t)
    ensures Sound(parse, versions, Loaded(parse, st, versions[r.stat].stamp, versions[r.read].text), r.read)
  {
    hide Read;
    var next := Loaded(parse, st, versions[r.stat].stamp, versions[r.read].text);
    assert Said(parse, versions, r.read) == Read(parse, versions[r.read].text);
    assert Seen(versions, t) ==> Seen(versions, r.stat);
    assert Seen(versions, r.stat) ==> Seen(versions, r.read);
    if next != st {
      assert Seen(versions, r.stat);
      assert next.stamp == versions[|versions| - 1].stamp ==> Tells(parse, versions, r.stat, r.read);
    }
  }

  lemma {:induction false} RunSound(parse: Parser, versions: seq<Version>, rs: seq<Request>)
    requires Timely(rs, versions) && rs != [] && versions != [] && StampsTell(parse, versions)
    ensures Sound(parse, versions, After(parse, versions, rs), rs[|rs| - 1].read)
  {
    hide Sound, StampsTell, Loaded;
    var init, last := rs[..|rs| - 1], rs[|rs| - 1];
    assert Timely(init, versions);
    if init == [] {
      FreshSound(parse, versions);
      SoundStep(parse, versions, FRESH, 0, last);
    } else {
      RunSound(parse, versions, init);
      SoundStep(parse, versions, After(parse, versions, init), init[|init| - 1].read, last);
    }
  }

  lemma FreshSound(parse: Parser, versions: seq<Version>)
    requires versions != [] && StampsTell(parse, versions)
    ensures Sound(parse, versions, FRESH, 0)
  {
  }

  /** Requests that end with a settled one, made of those given. */
  lemma Ends(parse: Parser, versions: seq<Version>, rs: seq<Request>)
    requires versions != [] && AlwaysFresh(parse, versions) && Timely(rs, versions)
    ensures var v := |versions| - 1;
            Said(parse, versions, v)
                == Some(Loaded(parse, After(parse, versions, rs), versions[v].stamp, versions[v].text).byHash)
  {
    var all := rs + [Settled(versions)];
    assert Timely(all, versions);
    AfterSnoc(parse, versions, rs, Settled(versions));
    assert all[|all| - 1] == Settled(versions);
  }

  /** A request to a new cache, and two. */
  lemma {:induction false} First(parse: Parser, versions: seq<Version>, p: Request)
    requires p.stat <= p.read < |versions|
    ensures Timely([p], versions)
    ensures After(parse, versions, [p]) == Loaded(parse, FRESH, versions[p.stat].stamp, versions[p.read].text)
  {
    hide Loaded, Read;
    var none: seq<Request> := [];
    assert Timely([p], versions) && Timely(none, versions);
    assert [p][..0] == none;
  }

  lemma {:induction false} Two(parse: Parser, versions: seq<Version>, p: Request, q: Request)
    requires p.stat <= p.read <= q.stat <= q.read < |versions|
    ensures Timely([p, q], versions)
    ensures After(parse, versions, [p, q]) ==
            Loaded(parse, Loaded(parse, FRESH, versions[p.stat].stamp, versions[p.read].text),
                   versions[q.stat].stamp, versions[q.read].text)
  {
    First(parse, versions, p);
    hide Loaded, Read, After;
    assert Timely([p, q], versions) && [p] + [q] == [p, q];
    AfterSnoc(parse, versions, [p], q);
  }

  /** If requests are always answered fresh, so are those that leave b's clients, or none, in the cache before a stamp
      that is the last version's comes with a text that does not parse. */
  lemma Told(parse: Parser, versions: seq<Version>, i: nat, r: nat)
    requires versions != [] && AlwaysFresh(parse, versions) && Said(parse, versions, |versions| - 1).Some?
    requires i <= r < |versions| && versions[i].stamp == versions[|versions| - 1].stamp && Seen(versions, i)
    ensures Tells(parse, versions, i, r)
  {
    hide AlwaysFresh, Read;
    var q := Request(i, r);
    var a :| 0 <= a <= i && versions[a].stamp.Some?;
    assert Said(parse, versions, r) == Read(parse, versions[r].text);
    if versions[i].stamp.Some? {
      First(parse, versions, q);
      Ends(parse, versions, [q]);
    } else {
      Two(parse, versions, Request(a, a), q);
      Ends(parse, versions, [Request(a, a), q]);
      NoneFresh(parse, versions);
    }
    forall b | 0 <= b <= i && Seen(versions, b) && Said(parse, versions, b).Some? && Said(parse, versions, r) == None
      ensures Said(parse, versions, b) == Said(parse, versions, |versions| - 1)
    {
      var x :| 0 <= x <= b && versions[x].stamp.Some?;
      assert Said(parse, versions, b) == Read(parse, versions[b].text);
      Two(parse, versions, Request(x, b), q);
      Ends(parse, versions, [Request(x, b), q]);
    }
  }

  lemma NoneFresh(parse: Parser, versions: seq<Version>)
    requires versions != [] && AlwaysFresh(parse, versions)
    ensures versions[|versions| - 1].stamp == None ==> Said(parse, versions, |versions| - 1) == Some(map[])
  {
    assert Timely([], versions);
    Ends(parse, versions, []);
  }

  /** Once the file has settled on a version that parses, requests answer as a fresh parse would, whatever came before,
      exactly when its stamp tells what it says. */
  lemma FreshExactly(parse: Parser, versions: seq<Version>)
    requires versions != [] && Said(parse, versions, |versions| - 1).Some?
    ensures AlwaysFresh(parse, versions) <==> StampsTell(parse, versions)
  {
    hide Said, Tells, Sound, Timely;
    var v := |versions| - 1;
    if StampsTell(parse, versions) {
      forall rs | Timely(rs, versions) && rs != [] && rs[|rs| - 1] == Settled(versions)
        ensures Said(parse, versions, v) == Some(After(parse, versions, rs).byHash)
      {
        RunSound(parse, versions, rs);
        SettledStamp(parse, versions, rs);
      }
    }
    if AlwaysFresh(parse, versions) {
      NoneFresh(parse, versions);
      forall i, r | 0 <= i <= r <= v && versions[i].stamp == versions[v].stamp && Seen(versions, i)
        ensures Tells(parse, versions, i, r)
      {
        Told(parse, versions, i, r);
      }
    }
  }

  lemma {:induction false} SettledStamp(parse: Parser, versions: seq<Version>, rs: seq<Request>)
    requires Timely(rs, versions) && rs != []
    ensures After(parse, versions, rs).stamp == versions[rs[|rs| - 1].stat].stamp
    ensures Sound(parse, versions, After(parse, versions, rs), rs[|rs| - 1].read) && rs[|rs| - 1] == Settled(versions)
            ==> Said(parse, versions, |versions| - 1) == Some(After(parse, versions, rs).byHash)
  {
  }

  /** Requests after a settled one change nothing, so that an answer that is stale then stays so for good. */
  lemma {:induction false} StaleForGood(parse: Parser, versions: seq<Version>, rs: seq<Request>, n: nat)
    requires Timely(rs, versions) && rs != [] && versions != [] && rs[|rs| - 1] == Settled(versions)
    ensures var more := rs + Again(versions, n);
            && Timely(more, versions) && more[|more| - 1] == Settled(versions)
            && After(parse, versions, more) == After(parse, versions, rs)
  {
    hide After, Loaded, Read, Timely;
    if n == 0 {
      assert rs + Again(versions, 0) == rs;
    } else {
      var less := rs + Again(versions, n - 1);
      StaleForGood(parse, versions, rs, n - 1);
      assert rs + Again(versions, n) == less + [Settled(versions)];
      OneMore(parse, versions, less);
    }
  }

  /** n more requests made once the file has settled. */
  function Again(versions: seq<Version>, n: nat): seq<Request>
    requires versions != []
  {
    seq(n, _ => Settled(versions))
  }

  lemma {:induction false} OneMore(parse: Parser, versions: seq<Version>, rs: seq<Request>)
    requires Timely(rs, versions) && rs != [] && versions != [] && rs[|rs| - 1] == Settled(versions)
    ensures var more := rs + [Settled(versions)];
            Timely(more, versions) && After(parse, versions, more) == After(parse, versions, rs)
  {
    SettledStamp(parse, versions, rs);
    hide After, Read;
    assert Timely(rs + [Settled(versions)], versions);
    AfterSnoc(parse, versions, rs, Settled(versions));
  }

  /** Of any two texts that list different clients: if the second is written with the first one's stamp, the cache
      answers from the first, however many requests follow. */
  lemma RepeatedStampStale(stamp: Stamp, before: seq<Entry>, now: seq<Entry>, n: nat)
    requires Indexed(before) != Indexed(now)
    ensures var parse := (text: string) => if text == "old" then Some(before) else Some(now);
            var versions := [Version(Some(stamp), "old"), Version(Some(stamp), "now")];
            var rs := [Request(0, 0), Request(1, 1)] + Again(versions, n);
            && Timely(rs, versions)
            && After(parse, versions, rs).byHash == Indexed(before)
            && Said(parse, versions, 1) == Some(Indexed(now))
  {
    var parse := (text: string) => if text == "old" then Some(before) else Some(now);
    var versions := [Version(Some(stamp), "old"), Version(Some(stamp), "now")];
    Two(parse, versions, Request(0, 0), Request(1, 1));
    StaleForGood(parse, versions, [Request(0, 0), Request(1, 1)], n);
  }
}
