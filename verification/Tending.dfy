/** What the steps of a day do to one facility's condition and to one world's people, in the rules' own figures. */
module Tending {
  import opened Units
  import opened Stock
  import opened Catalog
  import opened State
  import opened Support
  import opened Upkeep
  import opened Maintenance
  import opened Departures
  import opened Needs
  import opened Shelves

  /** c is x brought within the rules' bounds on a condition. */
  ghost predicate IsBounded(cat: Catalog, x: int, c: int) {
    && (cat.rules.conditionMin <= x <= cat.rules.conditionMax ==> c == x)
    && (x < cat.rules.conditionMin ==> c == cat.rules.conditionMin)
    && (cat.rules.conditionMin <= x && cat.rules.conditionMax < x ==> c == cat.rules.conditionMax)
  }

  /** A finished facility opens on its day, and a service that is due ends: the condition gains, within its bounds, the
      day is noted, and the facility may work again. Nothing else about any facility changes. */
  lemma OpeningsAreDue(cat: Catalog, w: World, w': World)
    requires OpenStep(cat, w, w')
    ensures w' == w.(facilities := w'.facilities) && |w'.facilities| == |w.facilities|
    ensures forall i | 0 <= i < |w.facilities| ::
              var f, f' := w.facilities[i], w'.facilities[i];
              var back := f.serviceReady.Some? && f.serviceReady.value <= w.day;
              && f'.life == (if f.life == Commissioning && f.activates <= w.day then Active else f.life)
              && (if back then
                    f'.serviceReady.None? && f'.lastService == w.day
                    && IsBounded(cat, f.condition + cat.rules.serviceGain, f'.condition)
                  else
                    f'.serviceReady == f.serviceReady && f'.lastService == f.lastService
                    && f'.condition == f.condition)
              && f' == f.(life := f'.life, serviceReady := f'.serviceReady, lastService := f'.lastService,
                          condition := f'.condition)
  {
  }

  /** One facility's turn at maintenance: where the machinery it asks for is there, that is used up and its condition
      gains; where it is not, nothing is used and it loses. */
  ghost predicate Tended(cat: Catalog, w: World, w': World, i: nat)
    requires i < |w.facilities| && w.facilities[i].planet < |w.planets| && w.facilities[i].kind < |cat.facilities|
    requires cat.machinery < |w.planets[w.facilities[i].planet].stock.onHand|
  {
    var f := w.facilities[i];
    var due := cat.facilities[f.kind].maintenance;
    var kept := due <= w.planets[f.planet].stock.Available(cat.machinery);
    && |w'.facilities| == |w.facilities| && w'.facilities == w.facilities[i := w'.facilities[i]]
    && w'.facilities[i] == f.(condition := w'.facilities[i].condition)
    && IsBounded(cat, if kept then f.condition + cat.rules.maintainedGain else f.condition - cat.rules.unmaintainedLoss,
                 w'.facilities[i].condition)
    && Paid(w.planets, w'.planets, f.planet, if kept && due > 0 then map[cat.machinery := due] else map[])
  }

  lemma UpkeepIsPaid(cat: Catalog, w: World, w': World, i: nat)
    requires MaintainStep(cat, w, w', i) && w.facilities[i].planet < |w.planets|
    requires w.facilities[i].kind < |cat.facilities| && 0 <= cat.facilities[w.facilities[i].kind].maintenance
    requires cat.machinery < |w.planets[w.facilities[i].planet].stock.onHand|
             && 0 <= w.planets[w.facilities[i].planet].stock.Available(cat.machinery)
    ensures Tended(cat, w, w', i)
    ensures w' == w.(facilities := w'.facilities, planets := w'.planets, ledger := w'.ledger, recorded := w'.recorded)
  {
    hide Inventory.Available, Paid;
    var f := w.facilities[i];
    var due := Upkept(cat, f);
    if due != 0 && Pays(cat, w, i) {
      DebitedIsPaid(w.planets, w'.planets, f.planet, Single(cat.machinery, due));
    } else {
      NothingPaid(w.planets, f.planet);
    }
  }

  /** A world's people eat and drink what they need as far as the stock that is not reserved goes, and no more. */
  lemma PeopleAreServed(cat: Catalog, w: World, w': World, p: nat, ratio: int)
    requires NeedsStep(cat, w, w', p, ratio) && cat.food != cat.water
    ensures |w'.planets| == |w.planets| && OnlyStocks(w.planets, w'.planets)
    ensures forall q, k: nat | 0 <= q < |w.planets| && k < |w.planets[q].stock.onHand|
            && k < |w'.planets[q].stock.onHand|
              && !(q == p && (k == cat.food || k == cat.water)) ::
              w'.planets[q].stock.onHand[k] == w.planets[q].stock.onHand[k]
    ensures exists food ::
              && IsFloor(food, w.planets[p].population * cat.rules.foodPerResident * ratio, 10000)
              && Takes(w, w', p, cat.food, food)
    ensures Takes(w, w', p, cat.water, w.planets[p].population * cat.rules.waterPerResident)
  {
    var eaten := Served(cat, w.planets[p], ratio);
    FloorOfIsFloor(w.planets[p].population * cat.rules.foodPerResident, ratio, BP_ONE);
    DebitedHere(w.planets, w'.planets, p, eaten, p, cat.food);
    DebitedHere(w.planets, w'.planets, p, eaten, p, cat.water);
    forall q: nat, k: nat | q < |w.planets| && k < |w.planets[q].stock.onHand| && k < |w'.planets[q].stock.onHand|
                            && !(q == p && (k == cat.food || k == cat.water))
      ensures w'.planets[q].stock.onHand[k] == w.planets[q].stock.onHand[k]
    {
      DebitedHere(w.planets, w'.planets, p, eaten, q, k);
    }
    assert Takes(w, w', p, cat.food, FoodDemand(cat, w.planets[p], ratio));
  }

  /** Of what is not reserved of a resource, a demand takes all it needs or all there is. */
  ghost predicate Takes(w: World, w': World, p: nat, r: nat, demand: int)
    requires p < |w.planets| == |w'.planets| && r < |w.planets[p].stock.onHand|
  {
    && r < |w'.planets[p].stock.onHand|
    && var there := w.planets[p].stock.Available(r);
    w.planets[p].stock.onHand[r] - w'.planets[p].stock.onHand[r] == if demand <= there then demand else there
  }
}
