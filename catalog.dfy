/**
 * The fixed catalogue of the order generator: product price bands, the staff
 * rosters and the fixed manager/accountant identifiers (generate_orders.py:10-46).
 */
module Catalog {

  /** A storage staff member: display name, staff id and the warehouse (inventory) they work in. */
  datatype StaffMember = StaffMember(name: string, id: nat, warehouse: nat)

  const SalesReps: seq<nat> := [511111111, 522222222, 533333333, 544444444, 555555555]
  const DeliveryDrivers: seq<nat> := [411111111, 422222222, 433333333, 444444444]
  const StorageStaff: seq<StaffMember> := [
    StaffMember("Nabil Yousef", 311111111, 1),
    StaffMember("Saleh Ahmad", 322222222, 1),
    StaffMember("Fadi Hassan", 333333333, 1),
    StaffMember("Tariq Said", 344444444, 2),
    StaffMember("Rami Nasser", 355555555, 2),
    StaffMember("Adel Mahmoud", 366666666, 2),
    StaffMember("Walid Habib", 377777777, 3),
    StaffMember("Karim Farah", 388888888, 3),
    StaffMember("Samir Aziz", 399999999, 3)
  ]
  const ManagerId: nat := 211111111
  const AccountantId: nat := 111111111

  /** Product ids run from 1 to NumProducts. */
  const NumProducts := 70
  /** Price of an id that no band covers. */
  const DefaultPrice: nat := 100

  /** A price band: the half-open id range [lo, hi) and one price per id in it, in id order. */
  datatype Band = Band(lo: int, hi: int, prices: seq<nat>) {
    predicate Contains(id: int) {
      lo <= id < hi
    }
    predicate WellFormed() {
      |prices| == hi - lo
    }
  }

  /** The bands in the order the source's price table lists them. */
  const PriceBands: seq<Band> := [
    Band(1, 11, [200, 220, 190, 230, 250, 210, 195, 240, 225, 260]),   // toilets
    Band(11, 21, [160, 170, 150, 165, 180, 180, 155, 180, 170, 170]),  // sinks
    Band(21, 31, [110, 170, 100, 140, 200, 125, 130, 150, 115, 140]),  // faucets
    Band(31, 41, [110, 130, 115, 125, 95, 150, 130, 95, 105, 190]),    // faucets (more)
    Band(41, 51, [95, 420, 210, 230, 420, 430, 430, 210, 440, 410]),   // showers
    Band(51, 61, [400, 380, 380, 410, 390, 390, 410, 380, 420, 395]),  // bathtubs
    Band(61, 71, [30, 35, 35, 45, 45, 30, 50, 45, 30, 50])             // accessories
  ]

  predicate AllWellFormed(bands: seq<Band>) {
    forall k :: 0 <= k < |bands| ==> bands[k].WellFormed()
  }

  /**
   * Scans the bands in order and prices id by the first band that contains
   * it, at its offset from the band's lower end; DefaultPrice when none does.
   */
  function PriceIn(bands: seq<Band>, id: int): (p: nat)
    requires AllWellFormed(bands)
    ensures p == DefaultPrice || exists k :: 0 <= k < |bands| && bands[k].Contains(id) && p == bands[k].prices[id - bands[k].lo]
    decreases |bands|
  {
    if bands == [] then DefaultPrice
    else if bands[0].Contains(id) then bands[0].prices[id - bands[0].lo]
    else PriceIn(bands[1..], id)
  }

  /** The scan answers DefaultPrice when no band contains id, else the entry of the first band that does. */
  lemma {:induction false} PriceInFirstBand(bands: seq<Band>, id: int)
    requires AllWellFormed(bands)
    ensures (forall k :: 0 <= k < |bands| ==> !bands[k].Contains(id)) ==> PriceIn(bands, id) == DefaultPrice
    ensures forall k :: 0 <= k < |bands| && bands[k].Contains(id) &&
                        (forall m :: 0 <= m < k ==> !bands[m].Contains(id)) ==>
                          PriceIn(bands, id) == bands[k].prices[id - bands[k].lo]
    decreases |bands|
  {
    if bands != [] && !bands[0].Contains(id) {
      var rest := bands[1..];
      PriceInFirstBand(rest, id);
      forall k | 0 <= k < |bands| && bands[k].Contains(id) && (forall m :: 0 <= m < k ==> !bands[m].Contains(id))
        ensures PriceIn(bands, id) == bands[k].prices[id - bands[k].lo]
      {
        assert k > 0 && bands[k] == rest[k - 1];
        assert forall m :: 0 <= m < k - 1 ==> rest[m] == bands[m + 1];
      }
      assert forall k :: 1 <= k < |bands| ==> bands[k] == rest[k - 1];
    }
  }

  /** The catalogue price of a product id; an id outside 1..NumProducts costs DefaultPrice. */
  function ProductPrice(id: int): (p: nat)
    ensures !(1 <= id <= NumProducts) ==> p == DefaultPrice
  {
    assert AllWellFormed(PriceBands);
    if 1 <= id <= NumProducts then PriceIn(PriceBands, id)
    else
      UncataloguedPrice(id);
      PriceIn(PriceBands, id)
  }

  /** An id outside 1..NumProducts falls through every band of the scan and costs DefaultPrice. */
  lemma UncataloguedPrice(id: int)
    requires id < 1 || id > NumProducts
    ensures AllWellFormed(PriceBands) && PriceIn(PriceBands, id) == DefaultPrice
  {
    assert AllWellFormed(PriceBands);
    PriceInFirstBand(PriceBands, id);
    forall m | 0 <= m < |PriceBands|
      ensures !PriceBands[m].Contains(id)
    {
      BandLayout(m);
    }
  }

  /** Band m covers ids 10m+1 .. 10m+10 with ten prices, each in [30, 440]. */
  lemma BandLayout(m: int)
    requires 0 <= m < |PriceBands|
    ensures PriceBands[m].lo == 10 * m + 1 && PriceBands[m].hi == 10 * m + 11
    ensures |PriceBands[m].prices| == 10
    ensures forall j :: 0 <= j < 10 ==> 30 <= PriceBands[m].prices[j] <= 440
  {
    if m == 0 {
    } else if m == 1 {
    } else if m == 2 {
    } else if m == 3 {
    } else if m == 4 {
    } else if m == 5 {
    } else {
    }
  }

  /**
   * Every id in 1..NumProducts lies in band (id - 1) / 10, that band holds 10
   * prices, so the offset is a valid index, and the price is the entry at
   * that offset; catalogue prices are never below 30 nor above 440.
   */
  lemma CataloguedPrice(id: int)
    requires 1 <= id <= NumProducts
    ensures var b := PriceBands[(id - 1) / 10];
            b.Contains(id) && |b.prices| == 10 && 0 <= id - b.lo < 10 &&
            ProductPrice(id) == b.prices[id - b.lo]
    ensures 30 <= ProductPrice(id) <= 440
  {
    var k := (id - 1) / 10;
    BandLayout(k);
    assert AllWellFormed(PriceBands);
    PriceInFirstBand(PriceBands, id);
    forall m | 0 <= m < k
      ensures !PriceBands[m].Contains(id)
    {
      BandLayout(m);
    }
  }

  /** Every price, catalogued or default, lies in [30, 440]. */
  lemma PriceBounds(id: int)
    ensures 30 <= ProductPrice(id) <= 440
  {
    if 1 <= id <= NumProducts {
      CataloguedPrice(id);
    }
  }

  /** Round-robin choice from a non-empty roster by a sequence number: `roster[n % len(roster)]`. */
  function RoundRobin<T>(roster: seq<T>, n: int): (x: T)
    requires |roster| > 0
    ensures x in roster
  {
    roster[n % |roster|]
  }

  /** The members of roster working in warehouse w, in roster order. */
  function StaffIn(roster: seq<StaffMember>, w: nat): seq<StaffMember>
  {
    if roster == [] then []
    else if roster[0].warehouse == w then [roster[0]] + StaffIn(roster[1..], w)
    else StaffIn(roster[1..], w)
  }

  /** The filter keeps exactly the roster's members of warehouse w. */
  lemma {:induction false} StaffInSpec(roster: seq<StaffMember>, w: nat)
    ensures forall s :: s in StaffIn(roster, w) <==> s in roster && s.warehouse == w
  {
    if roster != [] {
      StaffInSpec(roster[1..], w);
      assert roster == [roster[0]] + roster[1..];
    }
  }

  /** The storage staff of warehouse w (the source's `[s for s in STORAGE_STAFF if s[2] == w]`). */
  function WarehouseStaff(w: nat): seq<StaffMember>
  {
    StaffIn(StorageStaff, w)
  }

  /**
   * Each of the three warehouses has exactly three storage staff: the roster
   * lists them together, warehouse w's at positions 3w-3 .. 3w-1.
   */
  lemma WarehouseRoster(w: nat)
    requires 1 <= w <= 3
    ensures WarehouseStaff(w) == StorageStaff[3 * w - 3 .. 3 * w]
    ensures |WarehouseStaff(w)| == 3
  {
    forall j | 0 <= j < |StorageStaff|
      ensures StorageStaff[j].warehouse == w <==> 3 * w - 3 <= j < 3 * w
    {
      assert StorageStaff[j].warehouse == j / 3 + 1;
    }
    StaffInBlock(StorageStaff, w, 3 * w - 3, 3 * w);
  }

  /** Filtering a roster whose members of w stand together at positions a .. b-1 keeps exactly that block. */
  lemma {:induction false} StaffInBlock(roster: seq<StaffMember>, w: nat, a: int, b: int)
    requires 0 <= a <= b <= |roster|
    requires forall j :: 0 <= j < |roster| ==> (roster[j].warehouse == w <==> a <= j < b)
    ensures StaffIn(roster, w) == roster[a..b]
    decreases |roster|
  {
    if roster != [] {
      var rest := roster[1..];
      assert forall j :: 0 <= j < |rest| ==> rest[j] == roster[j + 1];
      if a == 0 && b > 0 {
        StaffInBlock(rest, w, 0, b - 1);
        assert roster[0..b] == [roster[0]] + rest[0..b - 1];
      } else if a == 0 {
        StaffInBlock(rest, w, 0, 0);
      } else {
        StaffInBlock(rest, w, a - 1, b - 1);
        assert roster[a..b] == rest[a - 1..b - 1];
      }
    }
  }

  /** Member `pick` (0, 1 or 2) of warehouse w's staff, read off the roster's layout. */
  function WarehouseMember(w: nat, pick: int): StaffMember
    requires 1 <= w <= 3 && 0 <= pick < 3
  {
    StorageStaff[3 * w - 3 + pick]
  }

  /** Choosing from the filtered roster of warehouse w is choosing a storage staff member of w. */
  lemma WarehouseMemberSpec(w: nat, pick: int)
    requires 1 <= w <= 3 && 0 <= pick < 3
    ensures |WarehouseStaff(w)| == 3 && WarehouseStaff(w)[pick] == WarehouseMember(w, pick)
    ensures WarehouseMember(w, pick) in StorageStaff && WarehouseMember(w, pick).warehouse == w
  {
    WarehouseRoster(w);
    var j := 3 * w - 3 + pick;
    assert StorageStaff[j].warehouse == j / 3 + 1;
  }
}
