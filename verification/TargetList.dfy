/** Whom to ping: the lists that the schedulers build from the parsed ping list.
    A mesh group names addresses that all ping one another; an arrow group names
    sources that ping destinations. Where a value is not the string it should be,
    reading it throws; what was collected before that stays. */
module TargetList {
  import opened Common

  /** A value of the parsed file: a string, or something else. */
  datatype Node = Str(value: string) | Bad

  datatype MeshGroup = Mesh(nodes: seq<Node>) | MeshBad

  /** A group without `src` or `dst` is skipped. */
  datatype ArrowGroup = Arrow(src: seq<Node>, dst: seq<Node>) | ArrowSkip | ArrowBad

  /** What has been collected, and whether nothing was thrown. */
  datatype Found = Found(list: seq<string>, ok: bool)

  datatype Verdict = Hit | Miss | Thrown

  // ------------------------------------------------------------------ collecting

  /** With `unique`, an address already there is not added again. */
  function Add(list: seq<string>, ip: string, unique: bool): seq<string> {
    if unique && ip in list then list else list + [ip]
  }

  function AddAll(list: seq<string>, nodes: seq<Node>, unique: bool): Found
    decreases |nodes|
  {
    if nodes == [] then Found(list, true)
    else if nodes[0].Bad? then Found(list, false)
    else AddAll(Add(list, nodes[0].value, unique), nodes[1..], unique)
  }

  /** Looks for `me` and stops at the first match. */
  function Find(nodes: seq<Node>, me: string): Verdict {
    if nodes == [] then Miss
    else if nodes[0].Bad? then Thrown
    else if nodes[0].value == me then Hit
    else Find(nodes[1..], me)
  }

  function AddMesh(list: seq<string>, g: MeshGroup, me: string, unique: bool): Found {
    if g.MeshBad? then Found(list, false)
    else
      match Find(g.nodes, me)
      case Thrown => Found(list, false)
      case Miss => Found(list, true)
      case Hit => AddAll(list, g.nodes, unique)
  }

  function AddMeshes(list: seq<string>, groups: seq<MeshGroup>, me: string, unique: bool): Found
    decreases |groups|
  {
    if groups == [] then Found(list, true)
    else
      var f := AddMesh(list, groups[0], me, unique);
      if f.ok then AddMeshes(f.list, groups[1..], me, unique) else f
  }

  function AddArrow(list: seq<string>, g: ArrowGroup, me: string, unique: bool): Found {
    match g
    case ArrowBad => Found(list, false)
    case ArrowSkip => Found(list, true)
    case Arrow(src, dst) =>
      match Find(src, me)
      case Thrown => Found(list, false)
      case Miss => Found(list, true)
      case Hit => AddAll(list, dst, unique)
  }

  function AddArrows(list: seq<string>, groups: seq<ArrowGroup>, me: string, unique: bool): Found
    decreases |groups|
  {
    if groups == [] then Found(list, true)
    else
      var f := AddArrow(list, groups[0], me, unique);
      if f.ok then AddArrows(f.list, groups[1..], me, unique) else f
  }

  /** The TCP and UDP list: the mesh, then the arrows, whether or not the mesh was
      cut short. */
  function TcpUdpTargets(mesh: seq<MeshGroup>, arrows: seq<ArrowGroup>, me: string): Found {
    var m := AddMeshes([], mesh, me, true);
    var a := AddArrows(m.list, arrows, me, true);
    Found(a.list, m.ok && a.ok)
  }

  // --------------------------------------------------------------- what it means

  ghost predicate MeshTarget(groups: seq<MeshGroup>, me: string, ip: string) {
    exists g :: g in groups && g.Mesh? && Str(me) in g.nodes && Str(ip) in g.nodes
  }

  ghost predicate ArrowTarget(groups: seq<ArrowGroup>, me: string, ip: string) {
    exists g :: g in groups && g.Arrow? && Str(me) in g.src && Str(ip) in g.dst
  }

  ghost predicate IsTarget(mesh: seq<MeshGroup>, arrows: seq<ArrowGroup>, me: string, ip: string) {
    MeshTarget(mesh, me, ip) || ArrowTarget(arrows, me, ip)
  }

  /** What is collected is what was there and nodes, all of them unless it is cut
      short, and never twice if asked so. */
  lemma {:induction false} AddAllMeans(list: seq<string>, nodes: seq<Node>, unique: bool)
    ensures var f := AddAll(list, nodes, unique);
            && (forall ip :: ip in f.list ==> ip in list || Str(ip) in nodes)
            && (forall ip :: ip in list ==> ip in f.list)
            && (f.ok ==> forall ip :: Str(ip) in nodes ==> ip in f.list)
            && (unique && Distinct(list) ==> Distinct(f.list))
    decreases |nodes|
  {
    if nodes != [] && nodes[0].Str? {
      AddAllMeans(Add(list, nodes[0].value, unique), nodes[1..], unique);
      assert nodes == [nodes[0]] + nodes[1..];
    }
  }

  lemma {:induction false} MeshesMean(list: seq<string>, groups: seq<MeshGroup>, me: string, unique: bool)
    ensures var f := AddMeshes(list, groups, me, unique);
            && (forall ip :: ip in f.list ==> ip in list || MeshTarget(groups, me, ip))
            && (forall ip :: ip in list ==> ip in f.list)
            && (f.ok ==> forall ip :: MeshTarget(groups, me, ip) ==> ip in f.list)
            && (unique && Distinct(list) ==> Distinct(f.list))
    decreases |groups|
  {
    if groups != [] {
      var g, f := groups[0], AddMesh(list, groups[0], me, unique);
      assert groups == [g] + groups[1..];
      if g.Mesh? {
        FindIff(g.nodes, me);
        AddAllMeans(list, g.nodes, unique);
      }
      if f.ok {
        MeshesMean(f.list, groups[1..], me, unique);
      }
    }
  }

  lemma {:induction false} ArrowsMean(list: seq<string>, groups: seq<ArrowGroup>, me: string, unique: bool)
    ensures var f := AddArrows(list, groups, me, unique);
            && (forall ip :: ip in f.list ==> ip in list || ArrowTarget(groups, me, ip))
            && (forall ip :: ip in list ==> ip in f.list)
            && (f.ok ==> forall ip :: ArrowTarget(groups, me, ip) ==> ip in f.list)
            && (unique && Distinct(list) ==> Distinct(f.list))
    decreases |groups|
  {
    if groups != [] {
      var g, f := groups[0], AddArrow(list, groups[0], me, unique);
      assert groups == [g] + groups[1..];
      if g.Arrow? {
        FindIff(g.src, me);
        AddAllMeans(list, g.dst, unique);
      }
      if f.ok {
        ArrowsMean(f.list, groups[1..], me, unique);
      }
    }
  }

  /** The TCP and UDP list names no target twice and none it should not; and unless
      it was cut short, it names exactly the members of the mesh groups that this
      host is in and the destinations of the arrows that start from it. */
  lemma TcpUdpTargetsMean(mesh: seq<MeshGroup>, arrows: seq<ArrowGroup>, me: string)
    ensures var f := TcpUdpTargets(mesh, arrows, me);
            && Distinct(f.list)
            && (forall ip :: ip in f.list ==> IsTarget(mesh, arrows, me, ip))
            && (f.ok ==> forall ip :: IsTarget(mesh, arrows, me, ip) ==> ip in f.list)
  {
    MeshesMean([], mesh, me, true);
    ArrowsMean(AddMeshes([], mesh, me, true).list, arrows, me, true);
  }

  // ------------------------------------------------------- when it is cut short

  ghost predicate AllStrings(nodes: seq<Node>) {
    forall n :: n in nodes ==> n.Str?
  }

  /** The search for `me` meets nothing but strings before it stops. */
  ghost predicate SearchReads(nodes: seq<Node>, me: string) {
    forall i :: 0 <= i < |nodes| && nodes[i].Bad? ==> Str(me) in nodes[..i]
  }

  ghost predicate MeshesRead(groups: seq<MeshGroup>) {
    forall g :: g in groups ==> g.Mesh? && AllStrings(g.nodes)
  }

  /** The destinations are read only if `me` is a source. */
  ghost predicate ArrowReads(g: ArrowGroup, me: string) {
    !g.ArrowBad? && (g.Arrow? ==> SearchReads(g.src, me) && (Str(me) in g.src ==> AllStrings(g.dst)))
  }

  ghost predicate ArrowsRead(groups: seq<ArrowGroup>, me: string) {
    forall g :: g in groups ==> ArrowReads(g, me)
  }

  lemma {:induction false} AddAllOkIff(list: seq<string>, nodes: seq<Node>, unique: bool)
    ensures AddAll(list, nodes, unique).ok <==> AllStrings(nodes)
    decreases |nodes|
  {
    if nodes != [] {
      assert nodes[0] in nodes && nodes == [nodes[0]] + nodes[1..];
      if nodes[0].Str? {
        AddAllOkIff(Add(list, nodes[0].value, unique), nodes[1..], unique);
      }
    }
  }

  lemma SearchRest(nodes: seq<Node>, me: string)
    requires nodes != [] && nodes[0].Str? && nodes[0].value != me
    ensures SearchReads(nodes, me) <==> SearchReads(nodes[1..], me)
    ensures Str(me) in nodes <==> Str(me) in nodes[1..]
  {
    assert nodes == [nodes[0]] + nodes[1..];
    forall i | 0 <= i < |nodes| - 1
      ensures nodes[1..][i] == nodes[i + 1] && (Str(me) in nodes[..i + 1] <==> Str(me) in nodes[1..][..i])
    {
      assert nodes[..i + 1] == [nodes[0]] + nodes[1..][..i];
    }
  }

  lemma {:induction false} FindIff(nodes: seq<Node>, me: string)
    ensures Find(nodes, me) == Thrown <==> !SearchReads(nodes, me)
    ensures Find(nodes, me) == Hit ==> Str(me) in nodes
    ensures Find(nodes, me) == Miss ==> Str(me) !in nodes && AllStrings(nodes)
  {
    if nodes != [] {
      if nodes[0].Bad? {
        assert nodes[..0] == [];
      } else if nodes[0].value == me {
        assert nodes[0] == Str(me);
        forall i | 0 <= i < |nodes| && nodes[i].Bad?
          ensures Str(me) in nodes[..i]
        {
          assert nodes[..i][0] == Str(me);
        }
      } else {
        SearchRest(nodes, me);
        FindIff(nodes[1..], me);
        assert nodes == [nodes[0]] + nodes[1..];
      }
    }
  }

  lemma AllStringsAreRead(nodes: seq<Node>, me: string)
    requires AllStrings(nodes)
    ensures SearchReads(nodes, me)
  {
    assert forall i :: 0 <= i < |nodes| ==> nodes[i] in nodes;
  }

  lemma AddMeshOkIff(list: seq<string>, g: MeshGroup, me: string, unique: bool)
    ensures AddMesh(list, g, me, unique).ok <==> g.Mesh? && AllStrings(g.nodes)
  {
    if g.Mesh? {
      FindIff(g.nodes, me);
      AddAllOkIff(list, g.nodes, unique);
      if AllStrings(g.nodes) {
        AllStringsAreRead(g.nodes, me);
      }
    }
  }

  lemma AddArrowOkIff(list: seq<string>, g: ArrowGroup, me: string, unique: bool)
    ensures AddArrow(list, g, me, unique).ok <==> ArrowReads(g, me)
  {
    if g.Arrow? {
      FindIff(g.src, me);
      AddAllOkIff(list, g.dst, unique);
    }
  }

  lemma {:induction false} AddMeshesOkIff(list: seq<string>, groups: seq<MeshGroup>, me: string, unique: bool)
    ensures AddMeshes(list, groups, me, unique).ok <==> MeshesRead(groups)
    decreases |groups|
  {
    if groups != [] {
      var f := AddMesh(list, groups[0], me, unique);
      assert groups[0] in groups && groups == [groups[0]] + groups[1..];
      AddMeshOkIff(list, groups[0], me, unique);
      AddMeshesOkIff(f.list, groups[1..], me, unique);
    }
  }

  lemma {:induction false} AddArrowsOkIff(list: seq<string>, groups: seq<ArrowGroup>, me: string, unique: bool)
    ensures AddArrows(list, groups, me, unique).ok <==> ArrowsRead(groups, me)
    decreases |groups|
  {
    if groups != [] {
      var f := AddArrow(list, groups[0], me, unique);
      assert groups[0] in groups && groups == [groups[0]] + groups[1..];
      AddArrowOkIff(list, groups[0], me, unique);
      AddArrowsOkIff(f.list, groups[1..], me, unique);
    }
  }

  /** The TCP and UDP list is complete exactly when every mesh group is a list of
      strings, and every arrow group is so as far as it is read. */
  lemma TcpUdpOkIff(mesh: seq<MeshGroup>, arrows: seq<ArrowGroup>, me: string)
    ensures TcpUdpTargets(mesh, arrows, me).ok <==> MeshesRead(mesh) && ArrowsRead(arrows, me)
  {
    AddMeshesOkIff([], mesh, me, true);
    AddArrowsOkIff(AddMeshes([], mesh, me, true).list, arrows, me, true);
  }

  // ------------------------------------------------------------------------ RDMA

  datatype Address = Address(gid: string, lid: nat, qpn: nat)

  /** A row of the address store; its address may not be what it should be. */
  datatype Row = Row(ip: string, address: Address) | RowNoAddress(ip: string) | RowBad

  /** `seen` are the addresses taken, even if reading the rest of the row threw. */
  datatype Joined = Joined(seen: set<string>, list: seq<(string, Address)>, ok: bool)

  function Join(j: Joined, store: seq<Row>, relevant: seq<string>): Joined
    decreases |store|
  {
    if store == [] then j
    else
      match store[0]
      case RowBad => j.(ok := false)
      case RowNoAddress(ip) =>
        if ip in relevant && ip !in j.seen then Joined(j.seen + {ip}, j.list, false) else Join(j, store[1..], relevant)
      case Row(ip, address) =>
        Join(if ip in relevant && ip !in j.seen then Joined(j.seen + {ip}, j.list + [(ip, address)], j.ok) else j,
             store[1..], relevant)
  }

  /** Two passes, each joined with the address store; a pass that throws while it
      collects is not joined. */
  function RdmaTargets(mesh: seq<MeshGroup>, arrows: seq<ArrowGroup>, store: seq<Row>, me: string): Joined {
    var m := AddMeshes([], mesh, me, false);
    var j := if m.ok then Join(Joined({}, [], true), store, m.list) else Joined({}, [], false);
    var a := AddArrows([], arrows, me, false);
    if a.ok
    then
      var r := Join(j.(ok := true), store, a.list);
      r.(ok := j.ok && r.ok)
    else j.(ok := false)
  }

  ghost predicate InStore(store: seq<Row>, ip: string) {
    exists r :: r in store && !r.RowBad? && r.ip == ip
  }

  /** The first row for `ip`, if it holds an address. */
  ghost predicate FirstRow(store: seq<Row>, ip: string, address: Address) {
    exists i :: 0 <= i < |store| && store[i] == Row(ip, address) &&
      forall k :: 0 <= k < i ==> store[k].RowBad? || store[k].ip != ip
  }

  function Ips(list: seq<(string, Address)>): (r: seq<string>)
    ensures |r| == |list| && forall i :: 0 <= i < |list| ==> r[i] == list[i].0
  {
    seq(|list|, i requires 0 <= i < |list| => list[i].0)
  }

  ghost predicate JoinedOk(j: Joined) {
    Distinct(Ips(j.list)) && forall ip :: ip in Ips(j.list) ==> ip in j.seen
  }

  /** Entries `n` and on come from the store, and were not taken before. */
  ghost predicate Fresh(list: seq<(string, Address)>, n: nat, store: seq<Row>, relevant: seq<string>,
                        seen: set<string>)
  {
    forall k :: n <= k < |list| ==>
      list[k].0 in relevant && list[k].0 !in seen && FirstRow(store, list[k].0, list[k].1)
  }

  lemma LaterRow(store: seq<Row>, ip: string, address: Address)
    requires store != [] && FirstRow(store[1..], ip, address) && (store[0].RowBad? || store[0].ip != ip)
    ensures FirstRow(store, ip, address)
  {
    var i :| 0 <= i < |store| - 1 && store[1..][i] == Row(ip, address) &&
             forall k :: 0 <= k < i ==> store[1..][k].RowBad? || store[1..][k].ip != ip;
    forall k | 0 <= k < i + 1
      ensures store[k].RowBad? || store[k].ip != ip
    {
      assert k > 0 ==> store[k] == store[1..][k - 1];
    }
    assert store[i + 1] == Row(ip, address);
  }

  lemma InRest(store: seq<Row>, ip: string)
    requires InStore(store, ip)
    ensures (!store[0].RowBad? && store[0].ip == ip) || InStore(store[1..], ip)
  {
    var r :| r in store && !r.RowBad? && r.ip == ip;
    assert store == [store[0]] + store[1..];
  }

  /** The state after the first row, if nothing is thrown. */
  function JoinOne(j: Joined, row: Row, relevant: seq<string>): Joined {
    if row.Row? && row.ip in relevant && row.ip !in j.seen
    then Joined(j.seen + {row.ip}, j.list + [(row.ip, row.address)], j.ok) else j
  }

  lemma JoinOneOk(j: Joined, row: Row, relevant: seq<string>)
    requires JoinedOk(j)
    ensures JoinedOk(JoinOne(j, row, relevant))
  {
    var m := JoinOne(j, row, relevant);
    if m != j {
      assert Ips(m.list) == Ips(j.list) + [row.ip];
    }
  }

  /** A join adds, for addresses not taken before, what their first row says; and
      unless it is cut short, for all that are asked for and in the store. */
  lemma {:induction false} JoinMeans(j: Joined, store: seq<Row>, relevant: seq<string>)
    requires JoinedOk(j)
    ensures var r := Join(j, store, relevant);
            && JoinedOk(r) && (r.ok ==> j.ok) && j.list <= r.list && j.seen <= r.seen
            && Fresh(r.list, |j.list|, store, relevant, j.seen)
            && (r.ok ==> forall ip :: ip in relevant && InStore(store, ip) ==> ip in r.seen)
            && (r.ok ==> forall ip :: ip in r.seen ==> ip in j.seen || ip in Ips(r.list))
    decreases |store|
  {
    if store != [] && !store[0].RowBad? {
      var row, m, r := store[0], JoinOne(j, store[0], relevant), Join(j, store, relevant);
      JoinOneOk(j, row, relevant);
      if row.Row? || row.ip !in relevant || row.ip in j.seen {
        JoinMeans(m, store[1..], relevant);
        forall k | |j.list| <= k < |r.list|
          ensures r.list[k].0 in relevant && r.list[k].0 !in j.seen && FirstRow(store, r.list[k].0, r.list[k].1)
        {
          if k >= |m.list| {
            LaterRow(store, r.list[k].0, r.list[k].1);
          } else {
            assert r.list[k] == m.list[k] == (row.ip, row.address);
          }
        }
        forall ip | ip in relevant && InStore(store, ip) && r.ok
          ensures ip in r.seen
        {
          InRest(store, ip);
        }
        assert |m.list| > |j.list| ==> r.list[|j.list|].0 == row.ip && row.ip in Ips(r.list);
      }
    }
  }

  /** The RDMA list names no address twice; each is a target, with what its first
      row in the store says; and unless it was cut short, every target in the store
      is named. */
  lemma RdmaTargetsMean(mesh: seq<MeshGroup>, arrows: seq<ArrowGroup>, store: seq<Row>, me: string)
    ensures var r := RdmaTargets(mesh, arrows, store, me);
            && Distinct(Ips(r.list))
            && (forall k :: 0 <= k < |r.list| ==>
                  FirstRow(store, r.list[k].0, r.list[k].1) && IsTarget(mesh, arrows, me, r.list[k].0))
            && (r.ok ==> forall ip :: ip in Ips(r.list) <==> IsTarget(mesh, arrows, me, ip) && InStore(store, ip))
  {
    var m, a := AddMeshes([], mesh, me, false), AddArrows([], arrows, me, false);
    MeshesMean([], mesh, me, false);
    ArrowsMean([], arrows, me, false);
    JoinMeans(Joined({}, [], true), store, m.list);
    var j := if m.ok then Join(Joined({}, [], true), store, m.list) else Joined({}, [], false);
    if a.ok {
      JoinMeans(j.(ok := true), store, a.list);
    }
  }

  /** The first row for `ip` holds no address. */
  predicate Lacks(store: seq<Row>, ip: string) {
    store != [] &&
    if !store[0].RowBad? && store[0].ip == ip then store[0].RowNoAddress? else Lacks(store[1..], ip)
  }

  ghost predicate NoRowBad(store: seq<Row>) {
    forall r :: r in store ==> !r.RowBad?
  }

  /** A join is complete exactly when every row names an address, and the first row
      of each that is asked for and not taken before also holds one. */
  lemma {:induction false} JoinOkIff(j: Joined, store: seq<Row>, relevant: seq<string>)
    ensures Join(j, store, relevant).ok <==>
            j.ok && NoRowBad(store) && forall ip :: ip in relevant && ip !in j.seen ==> !Lacks(store, ip)
    decreases |store|
  {
    if store != [] {
      var row := store[0];
      assert row in store && store == [row] + store[1..];
      if row.RowNoAddress? && row.ip in relevant && row.ip !in j.seen {
        assert Lacks(store, row.ip);
      } else if !row.RowBad? {
        JoinOkIff(JoinOne(j, row, relevant), store[1..], relevant);
      }
    }
  }

  lemma {:induction false} FirstRowHolds(store: seq<Row>, ip: string, address: Address)
    requires FirstRow(store, ip, address)
    ensures !Lacks(store, ip)
    decreases |store|
  {
    var i :| 0 <= i < |store| && store[i] == Row(ip, address) &&
      forall k :: 0 <= k < i ==> store[k].RowBad? || store[k].ip != ip;
    if i > 0 {
      assert store[1..][i - 1] == store[i];
      assert forall k :: 0 <= k < i - 1 ==> store[1..][k] == store[k + 1];
      FirstRowHolds(store[1..], ip, address);
    }
  }

  /** What the first pass has taken does not lack an address. */
  lemma TakenHolds(store: seq<Row>, relevant: seq<string>, ip: string)
    requires Join(Joined({}, [], true), store, relevant).ok && ip in Join(Joined({}, [], true), store, relevant).seen
    ensures !Lacks(store, ip)
  {
    var j := Join(Joined({}, [], true), store, relevant);
    JoinMeans(Joined({}, [], true), store, relevant);
    assert ip in Ips(j.list);
    var k :| 0 <= k < |j.list| && Ips(j.list)[k] == ip;
    FirstRowHolds(store, ip, j.list[k].1);
  }

  /** The second pass, after a first that was complete. */
  lemma SecondPassOkIff(store: seq<Row>, first: seq<string>, second: seq<string>)
    requires Join(Joined({}, [], true), store, first).ok
    ensures Join(Join(Joined({}, [], true), store, first), store, second).ok <==>
            forall ip :: ip in second ==> !Lacks(store, ip)
  {
    var j := Join(Joined({}, [], true), store, first);
    JoinOkIff(Joined({}, [], true), store, first);
    JoinOkIff(j, store, second);
    forall ip | ip in second && ip in j.seen
      ensures !Lacks(store, ip)
    {
      TakenHolds(store, first, ip);
    }
  }

  /** The RDMA list is complete exactly when both kinds of group are read to the
      end, every row of the store names an address, and no target's first row
      lacks its address. */
  lemma RdmaOkIff(mesh: seq<MeshGroup>, arrows: seq<ArrowGroup>, store: seq<Row>, me: string)
    ensures RdmaTargets(mesh, arrows, store, me).ok <==>
            && MeshesRead(mesh) && ArrowsRead(arrows, me) && NoRowBad(store)
            && forall ip :: IsTarget(mesh, arrows, me, ip) ==> !Lacks(store, ip)
  {
    var m, a := AddMeshes([], mesh, me, false), AddArrows([], arrows, me, false);
    AddMeshesOkIff([], mesh, me, false);
    AddArrowsOkIff([], arrows, me, false);
    if m.ok && a.ok {
      MeshesMean([], mesh, me, false);
      ArrowsMean([], arrows, me, false);
      assert forall ip :: IsTarget(mesh, arrows, me, ip) <==> ip in m.list || ip in a.list;
      JoinOkIff(Joined({}, [], true), store, m.list);
      var j := Join(Joined({}, [], true), store, m.list);
      if j.ok {
        assert j.(ok := true) == j;
        SecondPassOkIff(store, m.list, a.list);
      }
    }
  }

  // ------------------------------------------------------------- the loops themselves

  method Collect(before: seq<string>, nodes: seq<Node>, unique: bool) returns (list: seq<string>, ok: bool)
    ensures Found(list, ok) == AddAll(before, nodes, unique)
  {
    list, ok := before, true;
    for i := 0 to |nodes|
      invariant ok && AddAll(list, nodes[i..], unique) == AddAll(before, nodes, unique)
    {
      assert nodes[i..][1..] == nodes[i + 1..];
      if nodes[i].Bad? {
        return list, false;
      }
      if !unique || nodes[i].value !in list {
        list := list + [nodes[i].value];
      }
    }
  }

  method Search(nodes: seq<Node>, me: string) returns (r: Verdict)
    ensures r == Find(nodes, me)
  {
    for i := 0 to |nodes|
      invariant Find(nodes[i..], me) == Find(nodes, me)
    {
      assert nodes[i..][1..] == nodes[i + 1..];
      if nodes[i].Bad? {
        return Thrown;
      }
      if nodes[i].value == me {
        return Hit;
      }
    }
    return Miss;
  }

  method CollectMeshes(groups: seq<MeshGroup>, me: string, unique: bool) returns (list: seq<string>, ok: bool)
    ensures Found(list, ok) == AddMeshes([], groups, me, unique)
  {
    list, ok := [], true;
    for i := 0 to |groups|
      invariant ok && AddMeshes(list, groups[i..], me, unique) == AddMeshes([], groups, me, unique)
    {
      assert groups[i..][1..] == groups[i + 1..];
      if groups[i].MeshBad? {
        return list, false;
      }
      var s := Search(groups[i].nodes, me);
      if s == Thrown {
        return list, false;
      }
      if s == Hit {
        list, ok := Collect(list, groups[i].nodes, unique);
        if !ok {
          return;
        }
      }
    }
  }

  method CollectArrows(before: seq<string>, groups: seq<ArrowGroup>, me: string, unique: bool)
    returns (list: seq<string>, ok: bool)
    ensures Found(list, ok) == AddArrows(before, groups, me, unique)
  {
    list, ok := before, true;
    for i := 0 to |groups|
      invariant ok && AddArrows(list, groups[i..], me, unique) == AddArrows(before, groups, me, unique)
    {
      assert groups[i..][1..] == groups[i + 1..];
      if groups[i].ArrowBad? {
        return list, false;
      }
      if groups[i].ArrowSkip? {
        continue;
      }
      var s := Search(groups[i].src, me);
      if s == Thrown {
        return list, false;
      }
      if s == Hit {
        list, ok := Collect(list, groups[i].dst, unique);
        if !ok {
          return;
        }
      }
    }
  }

  /** The TCP and UDP build: duplicate-free, only targets, and all of them unless it
      failed. */
  method BuildTcpUdp(mesh: seq<MeshGroup>, arrows: seq<ArrowGroup>, me: string)
    returns (list: seq<string>, failed: bool)
    ensures Found(list, !failed) == TcpUdpTargets(mesh, arrows, me)
    ensures Distinct(list)
    ensures forall ip :: ip in list ==> IsTarget(mesh, arrows, me, ip)
    ensures !failed ==> forall ip :: IsTarget(mesh, arrows, me, ip) ==> ip in list
    ensures failed <==> !(MeshesRead(mesh) && ArrowsRead(arrows, me))
  {
    var okMesh, okArrow;
    list, okMesh := CollectMeshes(mesh, me, true);
    list, okArrow := CollectArrows(list, arrows, me, true);
    failed := !okMesh || !okArrow;
    TcpUdpTargetsMean(mesh, arrows, me);
    TcpUdpOkIff(mesh, arrows, me);
  }

  method JoinStore(before: Joined, store: seq<Row>, relevant: seq<string>)
    returns (seen: set<string>, list: seq<(string, Address)>, ok: bool)
    requires before.ok
    ensures Joined(seen, list, ok) == Join(before, store, relevant)
  {
    seen, list, ok := before.seen, before.list, true;
    for i := 0 to |store|
      invariant ok && Join(Joined(seen, list, ok), store[i..], relevant) == Join(before, store, relevant)
    {
      assert store[i..][1..] == store[i + 1..];
      if store[i].RowBad? {
        return seen, list, false;
      }
      if store[i].ip in relevant && store[i].ip !in seen {
        seen := seen + {store[i].ip};
        if store[i].RowNoAddress? {
          return seen, list, false;
        }
        list := list + [(store[i].ip, store[i].address)];
      }
    }
  }

  /** The RDMA build: duplicate-free, only targets with what their first row says,
      and all targets in the store unless it failed; and when it fails, exactly. */
  method BuildRdma(mesh: seq<MeshGroup>, arrows: seq<ArrowGroup>, store: seq<Row>, me: string)
    returns (list: seq<(string, Address)>, failed: bool)
    ensures list == RdmaTargets(mesh, arrows, store, me).list && failed == !RdmaTargets(mesh, arrows, store, me).ok
    ensures Distinct(Ips(list))
    ensures forall k :: 0 <= k < |list| ==>
              FirstRow(store, list[k].0, list[k].1) && IsTarget(mesh, arrows, me, list[k].0)
    ensures !failed ==> forall ip :: ip in Ips(list) <==> IsTarget(mesh, arrows, me, ip) && InStore(store, ip)
    ensures !failed <==> && MeshesRead(mesh) && ArrowsRead(arrows, me) && NoRowBad(store)
                         && forall ip :: IsTarget(mesh, arrows, me, ip) ==> !Lacks(store, ip)
  {
    RdmaTargetsMean(mesh, arrows, store, me);
    RdmaOkIff(mesh, arrows, store, me);
    var relevant, ok := CollectMeshes(mesh, me, false);
    var seen := {};
    list, failed := [], !ok;
    if ok {
      seen, list, ok := JoinStore(Joined({}, [], true), store, relevant);
      failed := !ok;
    }
    relevant, ok := CollectArrows([], arrows, me, false);
    if ok {
      seen, list, ok := JoinStore(Joined(seen, list, true), store, relevant);
    }
    failed := failed || !ok;
  }
}
