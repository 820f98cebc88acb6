/** Taxed trades between inventories that may be one and the same map. */
module Trades {
  import opened Bags

  /** An item map by reference: the tax sink can be a trader's own inventory. */
  class Inventory {
    var items: Bag

    constructor (items: Bag)
      ensures this.items == items
    {
      this.items := items;
    }
  }

  /** The tax on `c` units: the rate is cut at 1, the product truncated, the result kept within 0..c. */
  function Tax(c: nat, rate: real): (t: nat)
    ensures t <= c
    ensures rate <= 0.0 ==> t == 0
    ensures rate >= 1.0 ==> t == c
    ensures 0.0 < rate < 1.0 ==> t as real <= c as real * rate < t as real + 1.0
  {
    if rate <= 0.0 then 0
    else
      var cut := if rate > 1.0 then 1.0 else rate;
      var t := (c as real * cut).Floor;
      if t < 0 then 0 else if t > c then c else t
  }

  /** CalcTax: the taxed items and amounts. */
  function CalcTax(items: Bag, rate: real): Bag {
    map i | i in items && items[i] > 0 && Tax(items[i], rate) > 0 :: Tax(items[i], rate)
  }

  function TaxOn(items: Bag, rate: real, i: Item): nat {
    Tax(Amount(items, i), rate)
  }

  lemma TaxOnIsCalcTax(items: Bag, rate: real, i: Item)
    ensures TaxOn(items, rate, i) == Count(CalcTax(items, rate), i)
    ensures i in CalcTax(items, rate) <==> TaxOn(items, rate, i) > 0
  {
  }

  /** The parts an inventory plays in a transfer; it may play several. */
  datatype Roles = Roles(src: bool, dst: bool, sink: bool)

  ghost function RolesOf(o: Inventory, src: Inventory, dst: Inventory, sink: Inventory?): Roles {
    Roles(o == src, o == dst, o == sink)
  }

  /** What moving `c` units with tax `t` adds to an inventory in these roles. */
  function Gain(r: Roles, c: int, t: int): int {
    (if r.src then -c else 0) + (if r.dst then c - t else 0) + (if r.sink then t else 0)
  }

  /** `now` is `before` with the items outside `todo` moved. */
  ghost predicate Gained(now: Bag, before: Bag, r: Roles, items: Bag, taxes: Bag, todo: set<Item>) {
    forall i :: Count(now, i) == Count(before, i) + if i in todo then 0 else Gain(r, Count(items, i), Count(taxes, i))
  }

  lemma GainedMore(after: Bag, mid: Bag, before: Bag, r: Roles, items: Bag, taxes: Bag, todo: set<Item>, i: Item)
    requires i in todo && Gained(mid, before, r, items, taxes, todo)
    requires forall j :: Count(after, j)
                      == Count(mid, j) + if j == i then Gain(r, Count(items, i), Count(taxes, i)) else 0
    ensures Gained(after, before, r, items, taxes, todo - {i})
  {
  }

  method Add(o: Inventory, i: Item, n: int)
    modifies o
    ensures o.items == old(o.items)[i := Count(old(o.items), i) + n]
  {
    o.items := o.items[i := Count(o.items, i) + n];
  }

  method MoveOne(src: Inventory, dst: Inventory, i: Item, c: int, tax: int, sink: Inventory?)
    requires tax >= 0
    modifies src, dst, sink
    ensures forall j :: Count(src.items, j)
                     == Count(old(src.items), j) + if j == i then Gain(RolesOf(src, src, dst, sink), c, tax) else 0
    ensures forall j :: Count(dst.items, j)
                     == Count(old(dst.items), j) + if j == i then Gain(RolesOf(dst, src, dst, sink), c, tax) else 0
    ensures sink != null ==>
              forall j :: Count(sink.items, j)
                       == Count(old(sink.items), j) + if j == i then Gain(RolesOf(sink, src, dst, sink), c, tax) else 0
  {
    Add(src, i, -c);
    Add(dst, i, c - tax);
    if sink != null && tax > 0 {
      Add(sink, i, tax);
    }
  }

  function Taxes(items: Bag, rate: real): Bag
    requires Positive(items)
  {
    map i | i in items :: Tax(items[i], rate)
  }

  /** ApplyTransferWithTax, given the tax of each item: each inventory ends exactly where its roles put it,
      aliased or not. */
  method Transfer(src: Inventory, dst: Inventory, items: Bag, taxes: Bag, sink: Inventory?)
    requires taxes.Keys == items.Keys && NonNegative(taxes)
    modifies src, dst, sink
    ensures Gained(src.items, old(src.items), RolesOf(src, src, dst, sink), items, taxes, {})
    ensures Gained(dst.items, old(dst.items), RolesOf(dst, src, dst, sink), items, taxes, {})
    ensures sink != null ==> Gained(sink.items, old(sink.items), RolesOf(sink, src, dst, sink), items, taxes, {})
  {
    var todo := items.Keys;
    ghost var rs, rd := RolesOf(src, src, dst, sink), RolesOf(dst, src, dst, sink);
    while todo != {}
      invariant todo <= items.Keys
      invariant Gained(src.items, old(src.items), rs, items, taxes, todo)
      invariant Gained(dst.items, old(dst.items), rd, items, taxes, todo)
      invariant sink != null ==> Gained(sink.items, old(sink.items), RolesOf(sink, src, dst, sink), items, taxes, todo)
      decreases todo
    {
      var i :| i in todo;
      ghost var s0, d0 := src.items, dst.items;
      ghost var k0 := if sink != null then sink.items else map[];
      MoveOne(src, dst, i, items[i], taxes[i], sink);
      GainedMore(src.items, s0, old(src.items), rs, items, taxes, todo, i);
      GainedMore(dst.items, d0, old(dst.items), rd, items, taxes, todo, i);
      if sink != null {
        GainedMore(sink.items, k0, old(sink.items), RolesOf(sink, src, dst, sink), items, taxes, todo, i);
      }
      todo := todo - {i};
    }
  }

  datatype Purses = Purses(from: Bag, to: Bag, sink: Bag)

  ghost function PursesOf(from: Inventory, to: Inventory, sink: Inventory?): Purses
    reads from, to, sink
  {
    Purses(from.items, to.items, if sink == null then map[] else sink.items)
  }

  ghost function TotalOf(p: Purses, same: bool, none: bool, aliased: bool, i: Item): int {
    Count(p.from, i) + (if same then 0 else Count(p.to, i)) + (if none || aliased then 0 else Count(p.sink, i))
  }

  /** All of one item across the distinct inventories involved. */
  ghost function Total(from: Inventory, to: Inventory, sink: Inventory?, i: Item): int
    reads from, to, sink
  {
    TotalOf(PursesOf(from, to, sink), from == to, sink == null, sink == from || sink == to, i)
  }

  /** A tax list: for each item between nothing and all of it. */
  ghost predicate TaxesOn(items: Bag, taxes: Bag) {
    taxes.Keys == items.Keys && forall i :: 0 <= Count(taxes, i) <= Count(items, i) == Amount(items, i)
  }

  /** An inventory's roles in the two legs of a trade. */
  ghost function Both(o: Inventory, from: Inventory, to: Inventory, sink: Inventory?): (Roles, Roles) {
    (RolesOf(o, from, to, sink), RolesOf(o, to, from, sink))
  }

  function Net(r: (Roles, Roles), o: int, q: int, p: int, b: int): int {
    Gain(r.0, o, p) + Gain(r.1, q, b)
  }

  ghost predicate Ended(after: Bag, before: Bag, r: (Roles, Roles), offer: Bag, request: Bag, paid: Bag, back: Bag) {
    forall i :: Count(after, i)
      == Count(before, i) + Net(r, Count(offer, i), Count(request, i), Count(paid, i), Count(back, i))
  }

  lemma TaxesNonNegative(items: Bag, taxes: Bag)
    requires TaxesOn(items, taxes)
    ensures NonNegative(taxes)
  {
    forall i | i in taxes ensures taxes[i] >= 0 {
      assert 0 <= Count(taxes, i);
    }
  }

  lemma BothWays(after: Bag, mid: Bag, before: Bag, r: (Roles, Roles), offer: Bag, request: Bag, paid: Bag, back: Bag)
    requires Gained(mid, before, r.0, offer, paid, {}) && Gained(after, mid, r.1, request, back, {})
    ensures Ended(after, before, r, offer, request, paid, back)
  {
    forall i
      ensures Count(after, i) == Count(before, i) + Gain(r.0, Count(offer, i), Count(paid, i))
                + Gain(r.1, Count(request, i), Count(back, i))
    {
      assert Count(mid, i) == Count(before, i) + Gain(r.0, Count(offer, i), Count(paid, i));
    }
  }

  method Swap(from: Inventory, to: Inventory, offer: Bag, request: Bag, sink: Inventory?, paid: Bag, back: Bag)
    requires TaxesOn(offer, paid) && TaxesOn(request, back)
    modifies from, to, sink
    ensures Ended(from.items, old(from.items), Both(from, from, to, sink), offer, request, paid, back)
    ensures Ended(to.items, old(to.items), Both(to, from, to, sink), offer, request, paid, back)
    ensures sink != null ==> Ended(sink.items, old(sink.items), Both(sink, from, to, sink), offer, request, paid, back)
  {
    TaxesNonNegative(offer, paid);
    TaxesNonNegative(request, back);
    Transfer(from, to, offer, paid, sink);
    ghost var from1, to1 := from.items, to.items;
    ghost var sink1 := if sink != null then sink.items else map[];
    Transfer(to, from, request, back, sink);
    BothWays(from.items, from1, old(from.items), Both(from, from, to, sink), offer, request, paid, back);
    BothWays(to.items, to1, old(to.items), Both(to, from, to, sink), offer, request, paid, back);
    if sink != null {
      BothWays(sink.items, sink1, old(sink.items), Both(sink, from, to, sink), offer, request, paid, back);
    }
  }

  /** The roles that payer, payee and sink can have in the two legs. */
  ghost predicate Cast(rf: (Roles, Roles), rt: (Roles, Roles), rs: (Roles, Roles), same: bool, noSink: bool) {
    && rf.0.src && rf.1.dst && rf.0.dst == same && rf.1.src == same && rf.0.sink == rf.1.sink
    && rt.0.dst && rt.1.src && rt.0.src == same && rt.1.dst == same && rt.0.sink == rt.1.sink
    && (noSink ==> !rf.0.sink && !rt.0.sink)
    && (!noSink ==> rs.0.sink && rs.1.sink && rs.0.src == rs.1.dst == rf.0.sink && rs.0.dst == rs.1.src == rt.0.sink)
    && (same ==> rf.0.sink == rt.0.sink)
    && (!same ==> !(rf.0.sink && rt.0.sink))
  }

  /** Over the distinct inventories of a trade the gains cancel, but for taxes nobody receives. */
  lemma GainsAddUp(rf: (Roles, Roles), rt: (Roles, Roles), rs: (Roles, Roles), same: bool, noSink: bool, o: int,
                   q: int, p: int, b: int)
    requires Cast(rf, rt, rs, same, noSink)
    ensures Net(rf, o, q, p, b) + (if same then 0 else Net(rt, o, q, p, b))
            + (if noSink || rf.0.sink || rt.0.sink then 0 else Net(rs, o, q, p, b))
         == if noSink then -p - b else 0
  {
  }

  lemma TotalsAddUp(was: Purses, end: Purses, same: bool, none: bool, aliased: bool,
                    rf: (Roles, Roles), rt: (Roles, Roles), rs: (Roles, Roles),
                    offer: Bag, request: Bag, paid: Bag, back: Bag)
    requires Cast(rf, rt, rs, same, none) && aliased == (rf.0.sink || rt.0.sink)
    requires Ended(end.from, was.from, rf, offer, request, paid, back)
    requires Ended(end.to, was.to, rt, offer, request, paid, back)
    requires !none ==> Ended(end.sink, was.sink, rs, offer, request, paid, back)
    ensures forall i :: TotalOf(end, same, none, aliased, i)
              == TotalOf(was, same, none, aliased, i) - if none then Count(paid, i) + Count(back, i) else 0
  {
    forall i
      ensures TotalOf(end, same, none, aliased, i)
           == TotalOf(was, same, none, aliased, i) - if none then Count(paid, i) + Count(back, i) else 0
    {
      GainsAddUp(rf, rt, rs, same, none, Count(offer, i), Count(request, i), Count(paid, i), Count(back, i));
    }
  }

  /** The same, added up. */
  method SwapAll(from: Inventory, to: Inventory, offer: Bag, request: Bag, sink: Inventory?, paid: Bag, back: Bag)
    requires TaxesOn(offer, paid) && TaxesOn(request, back)
    modifies from, to, sink
    ensures Ended(from.items, old(from.items), Both(from, from, to, sink), offer, request, paid, back)
    ensures Ended(to.items, old(to.items), Both(to, from, to, sink), offer, request, paid, back)
    ensures sink != null ==> Ended(sink.items, old(sink.items), Both(sink, from, to, sink), offer, request, paid, back)
    ensures forall i :: Total(from, to, sink, i)
              == old(Total(from, to, sink, i)) - if sink == null then Count(paid, i) + Count(back, i) else 0
  {
    Swap(from, to, offer, request, sink, paid, back);
    ghost var rs := if sink != null then Both(sink, from, to, sink) else Both(from, from, to, sink);
    TotalsAddUp(old(PursesOf(from, to, sink)), PursesOf(from, to, sink),
                from == to, sink == null, sink == from || sink == to,
                Both(from, from, to, sink), Both(to, from, to, sink), rs, offer, request, paid, back);
  }

  /** An inventory that covers what it pays in one leg and pays in at most one stays non-negative. */
  lemma StaysNonNegative(after: Bag, before: Bag, r: (Roles, Roles), offer: Bag, request: Bag, paid: Bag, back: Bag)
    requires NonNegative(before) && !(r.0.src && r.1.src)
    requires (r.0.src ==> Covers(before, offer)) && (r.1.src ==> Covers(before, request))
    requires forall i :: 0 <= Count(paid, i) <= Count(offer, i) && 0 <= Count(back, i) <= Count(request, i)
    requires Ended(after, before, r, offer, request, paid, back)
    ensures NonNegative(after)
  {
    forall i | i in after ensures after[i] >= 0 {
      assert after[i] == Count(after, i);
      assert Count(before, i) >= 0;
      assert r.0.src ==> Count(offer, i) <= Count(before, i);
      assert r.1.src ==> Count(request, i) <= Count(before, i);
      assert 0 <= Count(paid, i) <= Count(offer, i) && 0 <= Count(back, i) <= Count(request, i);
    }
  }

  /** The trade with the two tax lists in hand. */
  method Exchange(from: Inventory, to: Inventory, offer: Bag, request: Bag, sink: Inventory?, paid: Bag, back: Bag)
    returns (ok: bool)
    requires TaxesOn(offer, paid) && TaxesOn(request, back)
    requires NonNegative(from.items) && NonNegative(to.items) && (sink != null ==> NonNegative(sink.items))
    modifies from, to, sink
    ensures ok <==> Covers(old(from.items), offer) && Covers(old(to.items), request)
    ensures !ok ==>
              && from.items == old(from.items) && to.items == old(to.items)
              && (sink != null ==> sink.items == old(sink.items))
    ensures ok ==> forall i :: Total(from, to, sink, i)
                     == old(Total(from, to, sink, i)) - if sink == null then Count(paid, i) + Count(back, i) else 0
    ensures ok && from != to ==>
              && NonNegative(from.items) && NonNegative(to.items)
              && (sink != null ==> NonNegative(sink.items))
    ensures ok ==> Ended(from.items, old(from.items), Both(from, from, to, sink), offer, request, paid, back)
    ensures ok ==> Ended(to.items, old(to.items), Both(to, from, to, sink), offer, request, paid, back)
  {
    if !Covers(from.items, offer) || !Covers(to.items, request) {
      return false;
    }
    SwapAll(from, to, offer, request, sink, paid, back);
    if from != to {
      StaysNonNegative(from.items, old(from.items), Both(from, from, to, sink), offer, request, paid, back);
      StaysNonNegative(to.items, old(to.items), Both(to, from, to, sink), offer, request, paid, back);
      if sink != null {
        StaysNonNegative(sink.items, old(sink.items), Both(sink, from, to, sink), offer, request, paid, back);
      }
    }
    return true;
  }

  lemma TaxListFacts(items: Bag, rate: real)
    requires Positive(items)
    ensures TaxesOn(items, Taxes(items, rate))
    ensures forall i :: Count(Taxes(items, rate), i) == Count(CalcTax(items, rate), i) == TaxOn(items, rate, i)
  {
    forall i ensures Count(Taxes(items, rate), i) == Count(CalcTax(items, rate), i) == TaxOn(items, rate, i) {
      TaxOnIsCalcTax(items, rate, i);
    }
  }

  /** Accepting a trade: refused without effect unless both sides can pay. Otherwise every item is conserved
      across payer, payee and tax sink even when the sink is one of the traders; without a sink exactly the
      CalcTax amounts are lost; and between two agents nobody goes negative. */
  method AcceptTrade(from: Inventory, to: Inventory, offer: Bag, request: Bag, sink: Inventory?, rate: real)
    returns (ok: bool)
    requires Positive(offer) && Positive(request)
    requires NonNegative(from.items) && NonNegative(to.items) && (sink != null ==> NonNegative(sink.items))
    modifies from, to, sink
    ensures ok <==> Covers(old(from.items), offer) && Covers(old(to.items), request)
    ensures !ok ==>
              && from.items == old(from.items) && to.items == old(to.items)
              && (sink != null ==> sink.items == old(sink.items))
    ensures ok ==> forall i :: Total(from, to, sink, i)
                     == old(Total(from, to, sink, i))
                        - if sink == null then Count(CalcTax(offer, rate), i) + Count(CalcTax(request, rate), i) else 0
    ensures ok && from != to ==>
              && NonNegative(from.items) && NonNegative(to.items)
              && (sink != null ==> NonNegative(sink.items))
    ensures ok && from != to ==> forall i ::
              && Count(from.items, i)
                 == Count(old(from.items), i) - Amount(offer, i) + Amount(request, i) - TaxOn(request, rate, i)
                    + (if sink == from then TaxOn(offer, rate, i) + TaxOn(request, rate, i) else 0)
              && Count(to.items, i)
                 == Count(old(to.items), i) + Amount(offer, i) - TaxOn(offer, rate, i) - Amount(request, i)
                    + (if sink == to then TaxOn(offer, rate, i) + TaxOn(request, rate, i) else 0)
  {
    TaxListFacts(offer, rate);
    TaxListFacts(request, rate);
    ok := Exchange(from, to, offer, request, sink, Taxes(offer, rate), Taxes(request, rate));
  }
}
