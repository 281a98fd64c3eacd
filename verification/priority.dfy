/**
 * Priority of the pending view (`getPendingOrders`): how `createOrder`'s
 * splice places a new order among the pending ones, and which orderings of
 * the pending view the controller keeps.
 */
module Priority {
  import O = Orders
  import opened Controller
  import opened Invariants

  /** The length of the run of VIP orders at the front of `s`. */
  function LeadingVips(s: seq<O.Order>): (r: nat)
    ensures r <= |s|
    ensures forall j :: 0 <= j < r ==> s[j].kind == O.Vip
    ensures r < |s| ==> s[r].kind == O.Normal
  {
    if |s| == 0 then 0
    else match s[0].kind
      case Normal => 0
      case Vip => 1 + LeadingVips(s[1..])
  }

  /** Within each priority class, orders stand in submission (id) order. */
  ghost predicate FifoWithinClass(s: seq<O.Order>) {
    forall i, j :: 0 <= i < j < |s| && s[i].kind == s[j].kind ==> s[i].id < s[j].id
  }

  /** Filtering by status distributes over concatenation. */
  lemma {:induction false} WithStatusConcat(a: seq<O.Order>, b: seq<O.Order>, st: O.OrderStatus)
    ensures WithStatus(a + b, st) == WithStatus(a, st) + WithStatus(b, st)
    decreases |a|
  {
    if |a| > 0 {
      var h := if a[0].status == st then [a[0]] else [];
      assert (a + b)[0] == a[0] && (a + b)[1..] == a[1..] + b;
      calc {
        WithStatus(a + b, st);
        h + WithStatus(a[1..] + b, st);
        { WithStatusConcat(a[1..], b, st); }
        h + (WithStatus(a[1..], st) + WithStatus(b, st));
        (h + WithStatus(a[1..], st)) + WithStatus(b, st);
        WithStatus(a, st) + WithStatus(b, st);
      }
    } else {
      assert a + b == b;
    }
  }

  /** A sequence with no order of status `st` filters to nothing. */
  lemma WithStatusNone(s: seq<O.Order>, st: O.OrderStatus)
    requires forall j :: 0 <= j < |s| ==> s[j].status != st
    ensures WithStatus(s, st) == []
  {
  }

  /** A VIP run followed by something that does not start with a VIP: the run is the leading run. */
  lemma {:induction false} LeadingVipsOfConcat(a: seq<O.Order>, b: seq<O.Order>)
    requires forall j :: 0 <= j < |a| ==> a[j].kind == O.Vip
    requires b == [] || b[0].kind == O.Normal
    ensures LeadingVips(a + b) == |a|
    decreases |a|
  {
    if |a| > 0 {
      assert (a + b)[1..] == a[1..] + b;
      LeadingVipsOfConcat(a[1..], b);
    }
  }

  /** With no pending NORMAL in `s`, every pending order of `s` is a VIP. */
  lemma {:induction false} PendingAreVips(s: seq<O.Order>)
    requires forall j :: 0 <= j < |s| ==> !IsPendingNormal(s[j])
    ensures forall j :: 0 <= j < |WithStatus(s, O.Pending)| ==> WithStatus(s, O.Pending)[j].kind == O.Vip
    decreases |s|
  {
    if |s| > 0 {
      PendingAreVips(s[1..]);
      match s[0].kind
      case Vip =>
      case Normal => assert s[0].status != O.Pending;
    }
  }

  /** When the first pending order of `s` sits at `f` and is NORMAL, the pending view of `s` starts with a NORMAL. */
  lemma {:induction false} PendingStartsNormal(s: seq<O.Order>, f: nat)
    requires f <= |s| && forall j :: 0 <= j < f ==> s[j].status != O.Pending
    requires f < |s| ==> IsPendingNormal(s[f])
    ensures WithStatus(s, O.Pending) == [] || WithStatus(s, O.Pending)[0].kind == O.Normal
    decreases f
  {
    if f == |s| {
      WithStatusNone(s, O.Pending);
    } else if f > 0 {
      assert WithStatus(s, O.Pending) == WithStatus(s[1..], O.Pending);
      PendingStartsNormal(s[1..], f - 1);
    }
  }

  /** The pending view of a singleton PENDING order is that order. */
  lemma PendingSingleton(o: O.Order)
    requires o.status == O.Pending
    ensures WithStatus([o], O.Pending) == [o]
  {
    assert [o][1..] == [];
  }

  /** The pending view around a splice point: the part before, the new order, the part after. */
  lemma SplicePendingView(a: seq<O.Order>, o: O.Order, c: seq<O.Order>)
    requires o.status == O.Pending
    ensures WithStatus(a + [o] + c, O.Pending) == WithStatus(a, O.Pending) + [o] + WithStatus(c, O.Pending)
  {
    WithStatusConcat(a + [o], c, O.Pending);
    WithStatusConcat(a, [o], O.Pending);
    PendingSingleton(o);
  }

  /** The pending view of a sequence cut at `p` is the two views joined. */
  lemma CutPendingView(orders: seq<O.Order>, p: nat)
    requires p <= |orders|
    ensures WithStatus(orders, O.Pending) == WithStatus(orders[..p], O.Pending) + WithStatus(orders[p..], O.Pending)
  {
    var a := orders[..p];
    var c := orders[p..];
    assert orders == a + c;
    WithStatusConcat(a, c, O.Pending);
  }

  /** The pending orders before the VIP insertion point are exactly the leading VIP run of the view. */
  lemma VipInsertSplitsAtLeadingRun(orders: seq<O.Order>)
    ensures var p := VipInsertIndex(orders);
      LeadingVips(WithStatus(orders, O.Pending)) == |WithStatus(orders[..p], O.Pending)|
  {
    var p := VipInsertIndex(orders);
    var f := FirstPendingNormal(orders);
    var A := WithStatus(orders[..p], O.Pending);
    var Bs := WithStatus(orders[p..], O.Pending);
    CutPendingView(orders, p);
    PendingAreVips(orders[..p]);
    PendingStartsNormal(orders[p..], f - p);
    LeadingVipsOfConcat(A, Bs);
  }

  /**
   * In the pending view, a new VIP order lands right after the leading run of
   * pending VIPs (so before the first pending NORMAL), and every other pending
   * order keeps its place.
   */
  lemma VipEnqueuePendingView(orders: seq<O.Order>, o: O.Order)
    requires o.kind == O.Vip && o.status == O.Pending
    ensures var P := WithStatus(orders, O.Pending);
      var r := LeadingVips(P);
      WithStatus(Enqueue(orders, o), O.Pending) == P[..r] + [o] + P[r..]
  {
    var p := VipInsertIndex(orders);
    var A := WithStatus(orders[..p], O.Pending);
    var Bs := WithStatus(orders[p..], O.Pending);
    SplicePendingView(orders[..p], o, orders[p..]);
    CutPendingView(orders, p);
    VipInsertSplitsAtLeadingRun(orders);
    var P := A + Bs;
    assert P[..|A|] == A && P[|A|..] == Bs;
  }

  /** In the pending view, a new NORMAL order is appended at the tail. */
  lemma NormalEnqueuePendingView(orders: seq<O.Order>, o: O.Order)
    requires o.kind == O.Normal && o.status == O.Pending
    ensures WithStatus(Enqueue(orders, o), O.Pending) == WithStatus(orders, O.Pending) + [o]
  {
    assert Enqueue(orders, o) == orders + [o];
    WithStatusConcat(orders, [o], O.Pending);
    assert WithStatus([o], O.Pending) == [o];
  }

  /** The assignment pass removes exactly the head of the pending view, or nothing. */
  lemma AssignPendingView(e: Engine, now: nat)
    ensures var P := WithStatus(e.orders, O.Pending);
      var r := Assign(e, now);
      if FirstIdle(e.bots).Some? && FirstPending(e.orders).Some?
      then |P| > 0 && WithStatus(r.orders, O.Pending) == P[1..]
      else WithStatus(r.orders, O.Pending) == P
  {
    if FirstIdle(e.bots).Some? && FirstPending(e.orders).Some? {
      var r := Assign(e, now);
      var k := FirstPending(e.orders).value;
      assert e.orders == e.orders[..k] + [e.orders[k]] + e.orders[k + 1..];
      assert r.orders == e.orders[..k] + [r.orders[k]] + e.orders[k + 1..];
      WithStatusConcat(e.orders[..k] + [e.orders[k]], e.orders[k + 1..], O.Pending);
      WithStatusConcat(e.orders[..k], [e.orders[k]], O.Pending);
      WithStatusConcat(e.orders[..k] + [r.orders[k]], e.orders[k + 1..], O.Pending);
      WithStatusConcat(e.orders[..k], [r.orders[k]], O.Pending);
      WithStatusNone(e.orders[..k], O.Pending);
      assert WithStatus([e.orders[k]], O.Pending) == [e.orders[k]];
      assert WithStatus([r.orders[k]], O.Pending) == [];
    }
  }

  /** Three blocks (VIPs, one newer VIP, NORMALs) are in priority and FIFO order. */
  lemma BlocksOrdered(a: seq<O.Order>, o: O.Order, b: seq<O.Order>)
    requires forall j :: 0 <= j < |a| ==> a[j].kind == O.Vip && a[j].id < o.id
    requires o.kind == O.Vip
    requires forall j :: 0 <= j < |b| ==> b[j].kind != O.Vip
    requires FifoWithinClass(a) && FifoWithinClass(b)
    ensures VipsFirst(a + [o] + b) && FifoWithinClass(a + [o] + b)
  {
    var s := a + [o] + b;
    forall i, j | 0 <= i < j < |s| && s[i].kind == s[j].kind
      ensures s[i].id < s[j].id
    {
      if j >= |a| + 1 && i >= |a| + 1 {
        assert s[i] == b[i - |a| - 1] && s[j] == b[j - |a| - 1];
      }
    }
  }

  /** Dropping the head keeps both orderings. */
  lemma TailOrdered(s: seq<O.Order>)
    requires |s| > 0 && VipsFirst(s) && FifoWithinClass(s)
    ensures VipsFirst(s[1..]) && FifoWithinClass(s[1..])
  {
    assert forall i :: 0 <= i < |s| - 1 ==> s[1..][i] == s[i + 1];
  }

  /** Past the leading VIP run every order is NORMAL, in FIFO order. */
  lemma AfterLeadingRun(P: seq<O.Order>, r: nat)
    requires VipsFirst(P) && FifoWithinClass(P)
    requires r <= |P| && (r < |P| ==> P[r].kind == O.Normal)
    ensures forall j :: 0 <= j < |P[r..]| ==> P[r..][j].kind != O.Vip
    ensures FifoWithinClass(P[r..])
  {
    var b := P[r..];
    forall j | 0 <= j < |b|
      ensures b[j].kind != O.Vip
    {
      assert b[j] == P[r + j];
      if j > 0 {
        assert !(P[r].kind == O.Normal && P[r + j].kind == O.Vip);
      }
    }
    forall i, j | 0 <= i < j < |b| && b[i].kind == b[j].kind
      ensures b[i].id < b[j].id
    {
      assert b[i] == P[r + i] && b[j] == P[r + j];
    }
  }

  /** The leading VIP run is all VIP, in FIFO order, and older than a newer order `o`. */
  lemma LeadingRun(P: seq<O.Order>, r: nat, o: O.Order)
    requires FifoWithinClass(P)
    requires r <= |P| && forall j :: 0 <= j < r ==> P[j].kind == O.Vip
    requires forall j :: 0 <= j < |P| ==> P[j].id < o.id
    ensures forall j :: 0 <= j < |P[..r]| ==> P[..r][j].kind == O.Vip && P[..r][j].id < o.id
    ensures FifoWithinClass(P[..r])
  {
    var a := P[..r];
    forall i, j | 0 <= i < j < |a| && a[i].kind == a[j].kind
      ensures a[i].id < a[j].id
    {
      assert a[i] == P[i] && a[j] == P[j];
    }
  }

  /** Splicing a newer VIP after the leading VIP run keeps priority and FIFO order. */
  lemma VipSpliceOrdered(P: seq<O.Order>, o: O.Order)
    requires o.kind == O.Vip && VipsFirst(P) && FifoWithinClass(P)
    requires forall j :: 0 <= j < |P| ==> P[j].id < o.id
    ensures var r := LeadingVips(P);
      VipsFirst(P[..r] + [o] + P[r..]) && FifoWithinClass(P[..r] + [o] + P[r..])
  {
    var r := LeadingVips(P);
    AfterLeadingRun(P, r);
    LeadingRun(P, r, o);
    BlocksOrdered(P[..r], o, P[r..]);
  }

  /** Appending a newer NORMAL keeps priority and FIFO order. */
  lemma NormalAppendOrdered(P: seq<O.Order>, o: O.Order)
    requires o.kind == O.Normal && VipsFirst(P) && FifoWithinClass(P)
    requires forall j :: 0 <= j < |P| ==> P[j].id < o.id
    ensures VipsFirst(P + [o]) && FifoWithinClass(P + [o])
  {
    var P1 := P + [o];
    assert forall j :: 0 <= j < |P| ==> P1[j] == P[j];
  }

  /** A status view only holds ids the whole sequence stays below. */
  lemma {:induction false} WithStatusIdsBelow(s: seq<O.Order>, st: O.OrderStatus, bound: nat)
    requires forall k :: 0 <= k < |s| ==> s[k].id < bound
    ensures forall j :: 0 <= j < |WithStatus(s, st)| ==> WithStatus(s, st)[j].id < bound
    decreases |s|
  {
    if |s| > 0 {
      WithStatusIdsBelow(s[1..], st, bound);
      var t := WithStatus(s[1..], st);
      assert forall j :: 0 <= j < |t| ==> t[j].id < bound;
    }
  }

  /** Queuing a newer PENDING order keeps the pending view in priority and FIFO order. */
  lemma EnqueueKeepsPendingPriority(orders: seq<O.Order>, o: O.Order)
    requires o.status == O.Pending
    requires forall k :: 0 <= k < |orders| ==> orders[k].id < o.id
    requires VipsFirst(WithStatus(orders, O.Pending)) && FifoWithinClass(WithStatus(orders, O.Pending))
    ensures var P1 := WithStatus(Enqueue(orders, o), O.Pending);
      VipsFirst(P1) && FifoWithinClass(P1)
  {
    var P := WithStatus(orders, O.Pending);
    WithStatusIdsBelow(orders, O.Pending, o.id);
    match o.kind
    case Vip =>
      VipEnqueuePendingView(orders, o);
      VipSpliceOrdered(P, o);
    case Normal =>
      NormalEnqueuePendingView(orders, o);
      NormalAppendOrdered(P, o);
  }

  /**
   * `createOrder` keeps every pending VIP ahead of every pending NORMAL and
   * keeps FIFO order within each class of the pending view.
   */
  lemma CreateOrderKeepsPendingPriority(e: Engine, kind: O.OrderType, now: nat)
    requires forall k :: 0 <= k < |e.orders| ==> e.orders[k].id < e.nextOrderId
    requires VipsFirst(PendingOrders(e)) && FifoWithinClass(PendingOrders(e))
    ensures var after := CreateOrder(e, kind, now).engine;
      VipsFirst(PendingOrders(after)) && FifoWithinClass(PendingOrders(after))
  {
    var o := O.NewOrder(e.nextOrderId, kind, now);
    var q := e.(orders := Enqueue(e.orders, o), nextOrderId := e.nextOrderId + 1);
    EnqueueKeepsPendingPriority(e.orders, o);
    AssignPendingView(q, now);
    var P1 := WithStatus(q.orders, O.Pending);
    if |P1| > 0 {
      TailOrdered(P1);
    }
  }

  /** `h` may stand before every order of `s` without breaking either ordering. */
  ghost predicate MayPrecede(h: O.Order, x: O.Order) {
    && !(h.kind == O.Normal && x.kind == O.Vip)
    && (h.kind == O.Normal && x.kind == O.Normal ==> h.id < x.id)
  }

  /** What may follow `h` in a sequence may follow it in every status view of that sequence. */
  lemma {:induction false} WithStatusMayFollow(h: O.Order, s: seq<O.Order>, st: O.OrderStatus)
    requires forall k :: 0 <= k < |s| ==> MayPrecede(h, s[k])
    ensures forall j :: 0 <= j < |WithStatus(s, st)| ==> MayPrecede(h, WithStatus(s, st)[j])
    decreases |s|
  {
    if |s| > 0 {
      WithStatusMayFollow(h, s[1..], st);
      var t := WithStatus(s[1..], st);
      assert forall j :: 0 <= j < |t| ==> MayPrecede(h, t[j]);
    }
  }

  /** Putting in front an order that may precede every element keeps both orderings. */
  lemma ConsOrdered(h: O.Order, t: seq<O.Order>)
    requires VipsFirst(t) && NormalsInIdOrder(t)
    requires forall j :: 0 <= j < |t| ==> MayPrecede(h, t[j])
    ensures VipsFirst([h] + t) && NormalsInIdOrder([h] + t)
  {
    var w := [h] + t;
    forall i, j | 0 <= i < j < |w|
      ensures !(w[i].kind == O.Normal && w[j].kind == O.Vip)
      ensures w[i].kind == O.Normal && w[j].kind == O.Normal ==> w[i].id < w[j].id
    {
      if i == 0 {
        assert w[j] == t[j - 1];
        assert MayPrecede(h, t[j - 1]);
      } else {
        assert w[i] == t[i - 1] && w[j] == t[j - 1];
      }
    }
  }

  /** The head of an ordered sequence may precede everything after it. */
  lemma HeadMayPrecede(s: seq<O.Order>)
    requires |s| > 0 && VipsFirst(s) && NormalsInIdOrder(s)
    ensures forall k :: 0 <= k < |s[1..]| ==> MayPrecede(s[0], s[1..][k])
  {
    forall k | 0 <= k < |s[1..]|
      ensures MayPrecede(s[0], s[1..][k])
    {
      assert s[1..][k] == s[k + 1];
    }
  }

  /** The tail of an ordered sequence is ordered. */
  lemma TailKeepsOrderings(s: seq<O.Order>)
    requires |s| > 0 && VipsFirst(s) && NormalsInIdOrder(s)
    ensures VipsFirst(s[1..]) && NormalsInIdOrder(s[1..])
  {
    assert forall k :: 0 <= k < |s| - 1 ==> s[1..][k] == s[k + 1];
  }

  /** Filtering keeps the VIP-before-NORMAL order and the id order of NORMALs. */
  lemma {:induction false} WithStatusKeepsOrderings(s: seq<O.Order>, st: O.OrderStatus)
    requires VipsFirst(s) && NormalsInIdOrder(s)
    ensures VipsFirst(WithStatus(s, st)) && NormalsInIdOrder(WithStatus(s, st))
    decreases |s|
  {
    if |s| > 0 {
      TailKeepsOrderings(s);
      WithStatusKeepsOrderings(s[1..], st);
      if s[0].status == st {
        HeadMayPrecede(s);
        WithStatusMayFollow(s[0], s[1..], st);
        ConsOrdered(s[0], WithStatus(s[1..], st));
        assert WithStatus(s, st) == [s[0]] + WithStatus(s[1..], st);
      } else {
        assert WithStatus(s, st) == WithStatus(s[1..], st);
      }
    }
  }

  /**
   * On every valid engine, hence after every operation including `removeBot`,
   * pending VIPs precede pending NORMALs and pending NORMALs are in FIFO order.
   */
  lemma ValidPendingPriority(e: Engine)
    requires Valid(e)
    ensures VipsFirst(PendingOrders(e)) && NormalsInIdOrder(PendingOrders(e))
  {
    WithStatusKeepsOrderings(e.orders, O.Pending);
  }
}
