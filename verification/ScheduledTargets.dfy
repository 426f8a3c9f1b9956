/** The reloads of the two schedulers: from what is in the files to the list of
    targets, and how long that list outlives files that cannot be read. */
module ScheduledTargets {
  import opened Common
  import opened Fairness
  import opened Scheduler
  import opened TargetList

  /** The parsed ping list, as far as one protocol goes. */
  datatype PingList = PingList(mesh: seq<MeshGroup>, arrows: seq<ArrowGroup>)

  /** A reload of the TCP and UDP scheduler; `None` is a file that cannot be read. */
  function TcpUdpLoad(file: Option<PingList>, me: string): Load<string> {
    match file
    case None => FileFailed
    case Some(p) => var f := TcpUdpTargets(p.mesh, p.arrows, me); Parsed(f.list, f.ok)
  }

  /** A reload of the RDMA scheduler, which reads the address store as well. */
  function RdmaLoad(file: Option<PingList>, store: Option<seq<Row>>, me: string): Load<(string, Address)> {
    if file.None? || store.None? then FileFailed
    else var r := RdmaTargets(file.value.mesh, file.value.arrows, store.value, me); Parsed(r.list, r.ok)
  }

  /** What the files must be like for the list to be complete. */
  ghost predicate ReadsThrough(p: PingList, me: string) {
    MeshesRead(p.mesh) && ArrowsRead(p.arrows, me)
  }

  ghost predicate StoreReadsThrough(p: PingList, store: seq<Row>, me: string) {
    NoRowBad(store) && forall ip :: IsTarget(p.mesh, p.arrows, me, ip) ==> !Lacks(store, ip)
  }

  // ------------------------------------------------------ what a reload installs

  /** A ping list that can be read installs distinct targets, all of them targets of its
      groups and arrows, and every one of these when it reads through. */
  lemma TcpUdpInstalls(c: Config, s: State<string>, p: PingList, me: string)
    ensures var list := Reload(c, s, TcpUdpLoad(Some(p), me)).addresses;
            && Distinct(list)
            && (forall ip :: ip in list ==> MeshTarget(p.mesh, me, ip) || ArrowTarget(p.arrows, me, ip))
            && (ReadsThrough(p, me) ==>
                  forall ip :: MeshTarget(p.mesh, me, ip) || ArrowTarget(p.arrows, me, ip) ==> ip in list)
  {
    TcpUdpTargetsMean(p.mesh, p.arrows, me);
    TcpUdpOkIff(p.mesh, p.arrows, me);
  }

  /** So it is for RDMA with the targets that are in the store, each with its first row. */
  lemma RdmaInstalls(c: Config, s: State<(string, Address)>, p: PingList, store: seq<Row>, me: string)
    ensures var list := Reload(c, s, RdmaLoad(Some(p), Some(store), me)).addresses;
            && Distinct(Ips(list))
            && (forall k :: 0 <= k < |list| ==>
                  && FirstRow(store, list[k].0, list[k].1)
                  && (MeshTarget(p.mesh, me, list[k].0) || ArrowTarget(p.arrows, me, list[k].0)))
            && (ReadsThrough(p, me) && StoreReadsThrough(p, store, me) ==>
                  forall ip :: (MeshTarget(p.mesh, me, ip) || ArrowTarget(p.arrows, me, ip)) && InStore(store, ip) ==>
                    ip in Ips(list))
  {
    RdmaTargetsMean(p.mesh, p.arrows, store, me);
    RdmaOkIff(p.mesh, p.arrows, store, me);
  }

  /** That a list outlives one and two unreadable files, and not three, is true of
      a TCP or UDP ping list exactly when it reads through. */
  lemma TcpUdpSurvivesTwoIff(c: Config, now: nat, before: seq<Load<string>>, p: PingList, me: string)
    requires TcpUdpLoad(Some(p), me).list != []
    ensures (forall m: nat :: Loads(c, Start(now), before + [TcpUdpLoad(Some(p), me)] + Failures(m)).addresses
                           == if m < 3 then TcpUdpLoad(Some(p), me).list else [])
            <==> ReadsThrough(p, me)
  {
    SurvivesTwoIff(c, now, before, TcpUdpLoad(Some(p), me));
    TcpUdpOkIff(p.mesh, p.arrows, me);
  }

  lemma RdmaSurvivesTwoIff(c: Config, now: nat, before: seq<Load<(string, Address)>>,
                           p: PingList, store: seq<Row>, me: string)
    requires RdmaLoad(Some(p), Some(store), me).list != []
    ensures (forall m: nat ::
               Loads(c, Start(now), before + [RdmaLoad(Some(p), Some(store), me)] + Failures(m)).addresses
                           == if m < 3 then RdmaLoad(Some(p), Some(store), me).list else [])
            <==> ReadsThrough(p, me) && StoreReadsThrough(p, store, me)
  {
    SurvivesTwoIff(c, now, before, RdmaLoad(Some(p), Some(store), me));
    RdmaOkIff(p.mesh, p.arrows, store, me);
  }

  /** One mesh group: this host, another, and a value that is no string. */
  const CUT_SHORT: PingList := PingList([Mesh([Str("10.0.0.1"), Str("10.0.0.2"), Bad])], [])

  /** Its list has two targets, and two unreadable files clear it. */
  lemma TwoFailuresClear(c: Config, now: nat)
    ensures TcpUdpLoad(Some(CUT_SHORT), "10.0.0.1") == Parsed(["10.0.0.1", "10.0.0.2"], false)
    ensures Loads(c, Start(now), [TcpUdpLoad(Some(CUT_SHORT), "10.0.0.1"), FileFailed]).addresses ==
            ["10.0.0.1", "10.0.0.2"]
    ensures Loads(c, Start(now), [TcpUdpLoad(Some(CUT_SHORT), "10.0.0.1"), FileFailed, FileFailed]).addresses == []
  {
    var l := TcpUdpLoad(Some(CUT_SHORT), "10.0.0.1");
    assert l == Parsed(["10.0.0.1", "10.0.0.2"], false);
    TwoClear(c, now, l);
  }

  lemma TwoClear(c: Config, now: nat, l: Load<string>)
    requires l.Parsed? && !l.complete
    ensures Loads(c, Start(now), [l, FileFailed]).addresses == l.list
    ensures Loads(c, Start(now), [l, FileFailed, FileFailed]).addresses == []
  {
    var one, two, three := [l], [l, FileFailed], [l, FileFailed, FileFailed];
    assert one[..0] == [] && two[..1] == one && three[..2] == two;
    assert Loads(c, Start(now), one) == Reload(c, Start(now), l);
    assert Loads(c, Start(now), two) == Reload(c, Loads(c, Start(now), one), FileFailed);
    assert Loads(c, Start(now), three) == Reload(c, Loads(c, Start(now), two), FileFailed);
  }

  /** A list of two, 22 seconds for a round, the load period as shipped; and a caller
      who calls every 11 seconds, which is when each is due. */
  const TWO: seq<string> := ["a", "b"]
  const ROUND_22: Config := Config(22000000, 10, 100000)

  function EveryEleven(m: nat): (calls: seq<Call<string>>)
    ensures |calls| == m && forall i :: 0 <= i < m ==> calls[i] == At(i)
  {
    seq(m, i requires 0 <= i < m => At(i))
  }

  function At(i: nat): Call<string> {
    Call((i + 1) * 11000000000, (i + 1) * 11000000000, Parsed(TWO, true))
  }

  /** Each call reloads and starts over: the second target is never pinged, however
      long this goes on. */
  lemma SecondNeverPinged(m: nat)
    ensures !EverServed(ROUND_22, 0, EveryEleven(m), "b")
    ensures m > 0 ==> EverServed(ROUND_22, 0, EveryEleven(m), "a")
  {
    var calls := EveryEleven(m);
    TooFarDown(ROUND_22, 0, calls, TWO, 1, 0);
    if m > 0 {
      ServedExactly(ROUND_22, 0, calls, TWO, 0);
      assert Stretch(ROUND_22, 0, calls, 0, 1);
      assert Spaced(0, Pings(calls[0..]), 11000000000, [0], 1, 1);
      assert Fits(ROUND_22, 2, 0, calls, 0, 1, 1);
    }
  }
}
