/** The table of open ports and the allocation of their ids. */
module Manager {
  import opened Basics
  import opened PortModel
  import opened SerialIO

  const MAX_INT32: int := 2147483647
  /** The counter starts over once counter + 10 passes MAX_INT32. */
  const LAST_ID: int := 2147483637
  const MAX_ATTEMPTS: nat := 1000

  function Bump(counter: int): int {
    if counter + 1 + 10 > MAX_INT32 then 1 else counter + 1
  }

  /** The counter after k increments. */
  function Probe(counter: int, k: nat): int {
    if k == 0 then counter else Bump(Probe(counter, k - 1))
  }

  /** `tries` is the number of increments the search took. */
  datatype Search = Issued(id: int, tries: nat) | Exhausted(counter: int, tries: nat)

  /** The id search, from the given number of failed attempts on. */
  function Find(counter: int, live: set<int>, attempts: nat): Search
    requires attempts <= MAX_ATTEMPTS + 1
    decreases MAX_ATTEMPTS + 1 - attempts
  {
    var c := Bump(counter);
    if c !in live then Issued(c, attempts + 1)
    else if attempts > MAX_ATTEMPTS then Exhausted(c, attempts + 1)
    else Find(c, live, attempts + 1)
  }

  // ---- what the search finds ------------------------------------------------

  /** The probes walk through 1..LAST_ID cyclically. */
  lemma {:induction false} ProbeCycles(counter: int, k: nat)
    requires 0 <= counter <= LAST_ID && 0 < k
    ensures Probe(counter, k) == (counter + k - 1) % LAST_ID + 1
    ensures 1 <= Probe(counter, k) <= LAST_ID
  {
    if k > 1 {
      ProbeCycles(counter, k - 1);
    }
  }

  lemma ProbesDiffer(counter: int, j: nat, k: nat)
    requires 0 <= counter <= LAST_ID && 0 < j < k
    ensures Probe(counter, j) == Probe(counter, k) ==> k - j >= LAST_ID
  {
    ProbeCycles(counter, j);
    ProbeCycles(counter, k);
  }

  lemma {:induction false} ProbeFrom(counter: int, j: nat, k: nat)
    ensures Probe(Probe(counter, j), k) == Probe(counter, j + k)
  {
    if k > 0 {
      ProbeFrom(counter, j, k - 1);
    }
  }

  lemma {:induction false} FindFrom(counter: int, live: set<int>, attempts: nat)
    requires 0 <= attempts <= MAX_ATTEMPTS + 1
    requires forall k :: 1 <= k <= attempts ==> Probe(counter, k) in live
    ensures var r := Find(Probe(counter, attempts), live, attempts);
      && attempts < r.tries <= MAX_ATTEMPTS + 2
      && (forall k :: 1 <= k < r.tries ==> Probe(counter, k) in live)
      && (r.Issued? ==> r.id == Probe(counter, r.tries) && r.id !in live)
      && (r.Exhausted? ==>
            r.tries == MAX_ATTEMPTS + 2 && r.counter == Probe(counter, r.tries) && r.counter in live)
    decreases MAX_ATTEMPTS + 1 - attempts
  {
    var c := Probe(counter, attempts + 1);
    if c in live && attempts <= MAX_ATTEMPTS {
      FindFrom(counter, live, attempts + 1);
    }
  }

  /** The search issues the first id in cyclic order that is not live, and it
      gives up exactly when the next 1002 ids are all live. */
  lemma FindSpec(counter: int, live: set<int>)
    ensures var r := Find(counter, live, 0);
      && (r.Exhausted? <==> forall k :: 1 <= k <= 1002 ==> Probe(counter, k) in live)
      && (r.Issued? ==> r.id == Probe(counter, r.tries) && r.id !in live && 1 <= r.tries <= 1002)
      && (forall k :: 1 <= k < r.tries ==> Probe(counter, k) in live)
      && (r.Exhausted? ==> r.counter == Probe(counter, 1002) && r.tries == 1002)
  {
    FindFrom(counter, live, 0);
    var r := Find(counter, live, 0);
    if r.Issued? {
      assert Probe(counter, r.tries) !in live;
    }
  }

  /** The next k ids. */
  ghost function ProbeSet(counter: int, k: nat): set<int> {
    set j | 1 <= j <= k :: Probe(counter, j)
  }

  lemma {:induction false} ProbeSetSize(counter: int, k: nat)
    requires 0 <= counter <= LAST_ID && k <= LAST_ID
    ensures |ProbeSet(counter, k)| == k
  {
    if k > 0 {
      ProbeSetSize(counter, k - 1);
      assert ProbeSet(counter, k) == ProbeSet(counter, k - 1) + {Probe(counter, k)};
      if j :| 1 <= j <= k - 1 && Probe(counter, k) == Probe(counter, j) {
        ProbesDiffer(counter, j, k);
      }
    }
  }

  /** With fewer than 1002 ports open the search cannot give up. */
  lemma RoomEnough(counter: int, live: set<int>)
    requires 0 <= counter <= LAST_ID && |live| < 1002
    ensures Find(counter, live, 0).Issued?
  {
    FindSpec(counter, live);
    if Find(counter, live, 0).Exhausted? {
      ProbeSetSize(counter, 1002);
      assert ProbeSet(counter, 1002) <= live;
      Bigger(ProbeSet(counter, 1002), live);
    }
  }

  /** Fewer than 1002 is the exact bound: 1002 live ids can defeat it. */
  lemma RoomBoundIsTight(counter: int)
    requires 0 <= counter <= LAST_ID
    ensures |ProbeSet(counter, 1002)| == 1002 && Find(counter, ProbeSet(counter, 1002), 0).Exhausted?
  {
    ProbeSetSize(counter, 1002);
    FindSpec(counter, ProbeSet(counter, 1002));
  }

  // ---- the table --------------------------------------------------------------

  datatype OpenResult = Opened(id: int) | OpenFailed | NoId | OpenPanicked

  class PortManager {
    var idCounter: int
    var ports: map<int, PortHandle>
    /** The opens that got as far as the id search, and the removals. */
    ghost var acts: seq<Act>

    /** Counter and table are where these acts lead. */
    ghost predicate Valid()
      reads this
    {
      && 0 <= idCounter <= LAST_ID
      && (forall id :: id in ports ==> 1 <= id <= LAST_ID)
      && After(START, acts).counter == idCounter && After(START, acts).live == ports.Keys
    }

    constructor ()
      ensures Valid() && ports == map[] && idCounter == 0 && acts == []
    {
      idCounter, ports, acts := 0, map[], [];
    }

    /** `port` is what the library's open gave, null when it failed. */
    method Open(port: Port?, baud: int) returns (res: OpenResult)
      requires Valid()
      modifies this, (if port == null then {} else {port})`closes
      ensures Valid()
      ensures acts == if port == null then old(acts) else old(acts) + [OpenAct]
      ensures port == null <==> res.OpenFailed?
      ensures res.OpenFailed? ==> ports == old(ports) && idCounter == old(idCounter)
      ensures port != null ==>
        var r := Find(old(idCounter), old(ports.Keys), 0);
        && (r.Issued? <==> res.Opened?) && (r.Issued? ==> res.id == r.id)
        && idCounter == Probe(old(idCounter), r.tries)
      ensures res.Opened? ==>
        && 1 <= res.id <= 2147483637 && res.id !in old(ports) && res.id in ports
        && ports == old(ports)[res.id := ports[res.id]] && port.closes == old(port.closes)
        && fresh(ports[res.id]) && ports[res.id].port == port && ports[res.id].baud == baud
        && ports[res.id].Valid() && ports[res.id].Idle()
        && fresh(ports[res.id].readConch) && fresh(ports[res.id].writeConch)
      ensures res.NoId? || res.OpenPanicked? ==>
        && ports == old(ports) && |ports| >= 1002
        && |port.closes| == |old(port.closes)| + 1 && old(port.closes) <= port.closes
        && (res.OpenPanicked? <==> Last(port.closes).Panicked?)
    {
      if port == null {
        return OpenFailed;
      }
      ghost var before := After(START, acts);
      var id, found := NextId();
      AfterOpen(acts, before);
      acts := acts + [OpenAct];
      if !found {
        var end := port.Close();
        return if end.Panicked? then OpenPanicked else NoId;
      }
      var h := new PortHandle(port, baud);
      ports := ports[id := h];
      return Opened(id);
    }

    /** The id search. */
    method NextId() returns (id: int, found: bool)
      requires 0 <= idCounter <= LAST_ID
      modifies this`idCounter
      ensures 0 <= idCounter <= LAST_ID
      ensures var r := Find(old(idCounter), ports.Keys, 0);
        && (found <==> r.Issued?) && (found ==> id == r.id)
        && idCounter == Probe(old(idCounter), r.tries)
      ensures var s := Step(Alloc(old(idCounter), ports.Keys, 0, []), OpenAct);
        s.counter == idCounter && s.live == if found then ports.Keys + {id} else ports.Keys
      ensures found ==> 1 <= id <= LAST_ID && id !in ports
      ensures !found ==> |ports| >= 1002
    {
      ghost var start, live := idCounter, ports.Keys;
      FindSpec(start, live);
      var attempts := 0;
      while true
        invariant attempts <= MAX_ATTEMPTS + 1 && 0 <= idCounter <= LAST_ID
        invariant idCounter == Probe(start, attempts)
        invariant Find(idCounter, live, attempts) == Find(start, live, 0)
        decreases MAX_ATTEMPTS + 2 - attempts
      {
        idCounter := idCounter + 1;
        if idCounter + 10 > MAX_INT32 {
          idCounter := 1;
        }
        if idCounter !in ports {
          return idCounter, true;
        }
        if attempts > 1000 {
          if |live| < 1002 {
            RoomEnough(start, live);
          }
          return 0, false;
        }
        attempts := attempts + 1;
      }
    }

    method Get(id: int) returns (h: PortHandle?)
      ensures if id in ports then h == ports[id] else h == null
    {
      h := if id in ports then ports[id] else null;
    }

    method Remove(id: int)
      requires Valid()
      modifies this`ports, this`acts
      ensures Valid() && ports == old(ports) - {id} && acts == old(acts) + [RemoveAct(id)]
    {
      AfterSnoc(START, acts, RemoveAct(id));
      ports, acts := ports - {id}, acts + [RemoveAct(id)];
    }
  }

  // ---- runs of opens and removals ---------------------------------------------

  datatype Act = OpenAct | RemoveAct(id: int)

  /** An id together with the number of counter advances up to its issue. */
  datatype Issue = Issue(id: int, at: nat)

  datatype Alloc = Alloc(counter: int, live: set<int>, advances: nat, issues: seq<Issue>)

  function Step(s: Alloc, a: Act): Alloc {
    match a
    case OpenAct =>
      (match Find(s.counter, s.live, 0)
       case Issued(id, tries) =>
         Alloc(id, s.live + {id}, s.advances + tries, s.issues + [Issue(id, s.advances + tries)])
       case Exhausted(counter, tries) => s.(counter := counter, advances := s.advances + tries))
    case RemoveAct(id) => s.(live := s.live - {id})
  }

  function After(s: Alloc, acts: seq<Act>): Alloc {
    if acts == [] then s else Step(After(s, Front(acts)), Last(acts))
  }

  lemma AfterSnoc(s: Alloc, acts: seq<Act>, a: Act)
    ensures After(s, acts + [a]) == Step(After(s, acts), a)
  {
    assert Front(acts + [a]) == acts;
  }

  /** Where an open leads does not depend on what was issued before. */
  lemma AfterOpen(acts: seq<Act>, before: Alloc)
    requires before == After(START, acts)
    ensures var now, s := After(START, acts + [OpenAct]), Step(Alloc(before.counter, before.live, 0, []), OpenAct);
      now.counter == s.counter && now.live == s.live
  {
    AfterSnoc(START, acts, OpenAct);
  }

  const START := Alloc(0, {}, 0, [])

  ghost predicate Tracked(s: Alloc) {
    && s.counter == Probe(0, s.advances) && 0 <= s.counter <= LAST_ID
    && (forall i :: 0 <= i < |s.issues| ==>
          0 < s.issues[i].at <= s.advances && s.issues[i].id == Probe(0, s.issues[i].at))
    && (forall i, j :: 0 <= i < j < |s.issues| ==> s.issues[i].at < s.issues[j].at)
  }

  lemma {:induction false} AfterTracked(acts: seq<Act>)
    ensures Tracked(After(START, acts))
  {
    if acts != [] {
      AfterTracked(Front(acts));
      StepTracked(After(START, Front(acts)), Last(acts));
    }
  }

  lemma StepTracked(s: Alloc, a: Act)
    requires Tracked(s)
    ensures Tracked(Step(s, a))
  {
    if a.OpenAct? {
      FindSpec(s.counter, s.live);
      var r := Find(s.counter, s.live, 0);
      ProbeFrom(0, s.advances, r.tries);
      ProbeCycles(0, s.advances + r.tries);
    }
  }

  /** Two issues of one id lie at least LAST_ID counter advances apart. */
  lemma NoEarlyReuse(acts: seq<Act>, i: nat, j: nat)
    requires i < j < |After(START, acts).issues|
    requires After(START, acts).issues[i].id == After(START, acts).issues[j].id
    ensures After(START, acts).issues[j].at - After(START, acts).issues[i].at >= 2147483637
  {
    AfterTracked(acts);
    var s := After(START, acts);
    ProbesDiffer(0, s.issues[i].at, s.issues[j].at);
  }

  lemma {:induction false} Reissued(s: Alloc, more: seq<Act>, id: int)
    requires id !in s.live
    ensures s.issues <= After(s, more).issues
    ensures id in After(s, more).live ==>
      exists j :: |s.issues| <= j < |After(s, more).issues| && After(s, more).issues[j].id == id
  {
    if more != [] {
      Reissued(s, Front(more), id);
      var b, e := After(s, Front(more)), After(s, more);
      if id in e.live {
        if id in b.live {
          var j :| |s.issues| <= j < |b.issues| && b.issues[j].id == id;
          assert e.issues[j].id == id;
        } else {
          assert e.issues[|e.issues| - 1].id == id;
        }
      }
    }
  }

  lemma {:induction false} AfterConcat(s: Alloc, a: seq<Act>, b: seq<Act>)
    ensures After(s, a + b) == After(After(s, a), b)
  {
    if b == [] {
      assert a + b == a;
    } else {
      AfterConcat(s, a, Front(b));
      assert Front(a + b) == a + Front(b);
    }
  }

  /** A closed id resolves to nothing until the counter has gone all the way
      round since the id was issued. */
  lemma StaleIdStaysDead(acts: seq<Act>, more: seq<Act>, i: nat)
    requires i < |After(START, acts).issues|
    requires After(START, acts).issues[i].id !in After(START, acts).live
    requires After(START, acts + more).advances < After(START, acts).issues[i].at + 2147483637
    ensures After(START, acts).issues[i].id !in After(START, acts + more).live
  {
    var s, e, id := After(START, acts), After(START, acts + more), After(START, acts).issues[i].id;
    AfterConcat(START, acts, more);
    Reissued(s, more, id);
    if id in e.live {
      var j :| |s.issues| <= j < |e.issues| && e.issues[j].id == id;
      assert e.issues[i] == s.issues[i];
      NoEarlyReuse(acts + more, i, j);
      AfterTracked(acts + more);
    }
  }
}
