/** The immutable definitions a session runs against, with the guarantees catalog loading checks. */
module Catalog {
  import opened Stock

  datatype Option<+T> = None | Some(value: T)

  datatype Recipe = Recipe(
    staff: int,
    inputs: ResourceMap,
    outputs: ResourceMap,
    powerPerDay: int,
    powerOutput: int,
    handlingPerDay: int,
    efficiencyClass: Option<nat>,
    band: int)
  {
    predicate IsGenerator() {
      powerOutput > 0
    }
  }

  datatype FacilityDef = FacilityDef(
    recipes: seq<Recipe>,
    buildCost: ResourceMap,
    buildWork: int,
    minBuildDays: int,
    maintenance: int,
    passivePower: int,
    docks: int,
    buildable: bool,
    onePerWorld: bool,
    slots: int)

  datatype PlanetDef = PlanetDef(slotCount: int, efficiency: map<nat, int>)

  datatype FreightSpec = FreightSpec(
    origin: nat,
    destination: nat,
    cargoCapacity: int,
    tankCapacity: int,
    legDays: int,
    minDwellDays: int,
    roundTripFuel: int,
    outboundBurn: int,
    returnBurn: int,
    roundTripMachinery: int)

  datatype ExpeditionSpec = ExpeditionSpec(
    target: nat,
    residents: int,
    workers: int,
    launchCost: ResourceMap,
    cargo: ResourceMap,
    transitPerDay: ResourceMap,
    transitDays: int,
    hub: nat)

  datatype MandateSpec = MandateSpec(
    issueDay: int,
    deadlineDay: int,
    requirement: ResourceMap,
    negotiated: ResourceMap,
    negotiateBefore: int,
    outboundDays: int,
    serviceDays: int,
    returnDays: int,
    missionFuel: int,
    missionMachinery: int,
    lastDeparture: int)

  datatype Rules = Rules(
    conditionMin: int,
    conditionMax: int,
    maintainedGain: int,
    unmaintainedLoss: int,
    serviceCost: int,
    serviceDowntime: int,
    serviceGain: int,
    serviceMaxCondition: int,
    serviceCooldown: int,
    powerPerWorker: int,
    minBuildDays: int,
    jobToJobDays: int,
    reserveToJobDays: int,
    foodPerResident: int,
    waterPerResident: int,
    powerPerResident: int,
    reliefGrant: ResourceMap,
    reliefDelay: int)

  datatype Catalog = Catalog(
    resources: nat,
    volumePerUnit: seq<int>,
    food: nat,
    water: nat,
    coal: nat,
    machinery: nat,
    fuel: nat,
    facilities: seq<FacilityDef>,
    planets: seq<PlanetDef>,
    freight: FreightSpec,
    expedition: ExpeditionSpec,
    mandate: MandateSpec,
    rules: Rules)
  {
    function Volume(r: nat): int {
      if r < |volumePerUnit| then volumePerUnit[r] else 0
    }

    /** The world's output modifier for a recipe's efficiency class; none means no modifier. */
    function Efficiency(planet: nat, recipe: Recipe): Option<int>
      requires planet < |planets|
    {
      match recipe.efficiencyClass
      case None => None
      case Some(c) =>
        Some(if c in planets[planet].efficiency then planets[planet].efficiency[c] else 10000)
    }
  }

  ghost predicate ValidRecipe(c: Catalog, r: Recipe) {
    && 0 <= r.staff && 0 <= r.powerPerDay && 0 <= r.powerOutput && 0 <= r.handlingPerDay
    && Positive(r.inputs, c.resources) && Positive(r.outputs, c.resources)
    && (r.IsGenerator() ==> r.powerPerDay == 0)
  }

  ghost predicate ValidFacility(c: Catalog, f: FacilityDef) {
    && |f.recipes| > 0
    && (forall i | 0 <= i < |f.recipes| :: ValidRecipe(c, f.recipes[i]))
    && Positive(f.buildCost, c.resources)
    && 0 <= f.buildWork && 1 <= f.minBuildDays && 0 <= f.maintenance && 0 <= f.passivePower
  }

  ghost predicate ValidFreight(c: Catalog, f: FreightSpec) {
    && f.origin < |c.planets| && f.destination < |c.planets| && f.origin != f.destination
    && 0 <= f.cargoCapacity && 1 <= f.legDays && 0 <= f.minDwellDays
    && 0 <= f.outboundBurn && 0 <= f.returnBurn && 0 <= f.roundTripMachinery
    && f.outboundBurn + f.returnBurn <= f.roundTripFuel <= f.tankCapacity
  }

  ghost predicate ValidExpedition(c: Catalog, e: ExpeditionSpec) {
    && e.target < |c.planets| && e.hub < |c.facilities|
    && 0 <= e.workers <= e.residents && 1 <= e.transitDays
    && Positive(e.launchCost, c.resources) && Positive(e.cargo, c.resources) && Positive(e.transitPerDay, c.resources)
    && (forall r: nat :: Qty(e.cargo, r) <= Qty(e.launchCost, r))
  }

  ghost predicate ValidMandate(c: Catalog, m: MandateSpec) {
    && Positive(m.requirement, c.resources) && Positive(m.negotiated, c.resources)
    && (forall r: nat :: Qty(m.negotiated, r) <= Qty(m.requirement, r))
    && 1 <= m.outboundDays && 1 <= m.returnDays + m.serviceDays
    && 0 <= m.missionFuel && 0 <= m.missionMachinery && m.issueDay < m.deadlineDay
  }

  ghost predicate ValidRules(c: Catalog, r: Rules) {
    && r.conditionMin <= 10000 <= r.conditionMax && 0 <= r.serviceCost && 0 <= r.powerPerWorker
    && 0 <= r.foodPerResident && 0 <= r.waterPerResident && 0 <= r.powerPerResident
    && 1 <= r.jobToJobDays && 1 <= r.reserveToJobDays
    && Positive(r.reliefGrant, c.resources)
  }

  ghost predicate ValidCatalog(c: Catalog) {
    && |c.volumePerUnit| == c.resources
    && (forall r | 0 <= r < c.resources :: 0 <= c.volumePerUnit[r])
    && c.food < c.resources && c.water < c.resources && c.coal < c.resources
    && c.machinery < c.resources && c.fuel < c.resources && c.machinery != c.fuel && c.food != c.water
    && (forall i | 0 <= i < |c.facilities| :: ValidFacility(c, c.facilities[i]))
    && ValidFreight(c, c.freight)
    && ValidExpedition(c, c.expedition)
    && ValidMandate(c, c.mandate)
    && ValidRules(c, c.rules)
    && (forall i, k | 0 <= i < |c.planets| && k in c.planets[i].efficiency :: 0 <= c.planets[i].efficiency[k])
  }
}
