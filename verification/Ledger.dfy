/** The transaction ledger as double-entry bookkeeping over accounts. */
module Ledger {
  import opened Sums

  const LEDGER_CAP := 10000

  datatype Account =
    | PlanetStock(planet: nat)
    | Escrow(facility: nat)
    | ShipHold
    | Expedition
    | External
    | Front
    | SourceRecipe
    | SinkRecipe
    | SinkCivilian
    | SinkMaintenance
    | SinkConstruction
    | SinkPropulsion
    | SinkOutfitting
    | SinkEvent

  /** The prefixes planet:, escrow:, ship: and expedition: mark sector ownership. */
  predicate Owned(a: Account) {
    a.PlanetStock? || a.Escrow? || a.ShipHold? || a.Expedition?
  }

  datatype Move = Move(day: int, resource: nat, quantity: int, from: Account, to: Account)

  /** What one entry adds to an account's balance of a resource. */
  function Effect(m: Move, a: Account, r: nat): int {
    if m.resource != r then 0
    else (if m.to == a then m.quantity else 0) - (if m.from == a then m.quantity else 0)
  }

  function EffectOn(a: Account, r: nat): Move -> int {
    (m: Move) => Effect(m, a, r)
  }

  /** The balance an account holds when it starts empty and every entry is posted. */
  function Net(moves: seq<Move>, a: Account, r: nat): int {
    Sum(moves, EffectOn(a, r))
  }

  function OwnedEffect(m: Move, r: nat): int {
    if m.resource != r then 0
    else (if Owned(m.to) then m.quantity else 0) - (if Owned(m.from) then m.quantity else 0)
  }

  function OwnedEffectOn(r: nat): Move -> int {
    (m: Move) => OwnedEffect(m, r)
  }

  /** Inflow from outside accounts minus outflow to them. */
  function OwnedNet(moves: seq<Move>, r: nat): int {
    Sum(moves, OwnedEffectOn(r))
  }

  lemma NetAppend(moves: seq<Move>, m: Move)
    ensures forall a, r :: Net(moves + [m], a, r) == Net(moves, a, r) + Effect(m, a, r)
  {
    forall a, r ensures Net(moves + [m], a, r) == Net(moves, a, r) + Effect(m, a, r) {
      SumAppend(moves, m, EffectOn(a, r));
    }
  }

  /** The total over the escrow accounts of facilities 0..k. */
  ghost function EscrowNet(moves: seq<Move>, k: nat, r: nat): int {
    if k == 0 then 0 else EscrowNet(moves, k - 1, r) + Net(moves, Escrow(k - 1), r)
  }

  ghost function PlanetsNet(moves: seq<Move>, k: nat, r: nat): int {
    if k == 0 then 0 else PlanetsNet(moves, k - 1, r) + Net(moves, PlanetStock(k - 1), r)
  }

  /** The account, if it is a world or an escrow, is one of the given numbers of them. */
  ghost predicate InRange(a: Account, planets: nat, facilities: nat) {
    (a.PlanetStock? ==> a.planet < planets) && (a.Escrow? ==> a.facility < facilities)
  }

  ghost predicate AllInRange(moves: seq<Move>, planets: nat, facilities: nat) {
    forall i | 0 <= i < |moves| ::
        InRange(moves[i].from, planets, facilities) && InRange(moves[i].to, planets, facilities)
  }

  lemma {:induction false} EscrowNetAppend(moves: seq<Move>, m: Move, k: nat, r: nat)
    ensures EscrowNet(moves + [m], k, r) == EscrowNet(moves, k, r)
              + (if m.resource == r && m.to.Escrow? && m.to.facility < k then m.quantity else 0)
              - (if m.resource == r && m.from.Escrow? && m.from.facility < k then m.quantity else 0)
  {
    if k > 0 {
      EscrowNetAppend(moves, m, k - 1, r);
      SumAppend(moves, m, EffectOn(Escrow(k - 1), r));
    }
  }

  lemma {:induction false} PlanetsNetAppend(moves: seq<Move>, m: Move, k: nat, r: nat)
    ensures PlanetsNet(moves + [m], k, r) == PlanetsNet(moves, k, r)
              + (if m.resource == r && m.to.PlanetStock? && m.to.planet < k then m.quantity else 0)
              - (if m.resource == r && m.from.PlanetStock? && m.from.planet < k then m.quantity else 0)
  {
    if k > 0 {
      PlanetsNetAppend(moves, m, k - 1, r);
      SumAppend(moves, m, EffectOn(PlanetStock(k - 1), r));
    }
  }

  lemma {:induction false} EmptyNets(k: nat, r: nat)
    ensures EscrowNet([], k, r) == 0 && PlanetsNet([], k, r) == 0
  {
    if k > 0 {
      EmptyNets(k - 1, r);
    }
  }

  /** Transfers between owned accounts cancel: what the sector gained from outside is what its
      worlds, escrows, ship and expedition hold between them. */
  lemma {:induction false} OwnedIsTheSumOfItsAccounts(moves: seq<Move>, planets: nat, facilities: nat, r: nat)
    requires AllInRange(moves, planets, facilities)
    ensures OwnedNet(moves, r) == PlanetsNet(moves, planets, r) + EscrowNet(moves, facilities, r)
                                  + Net(moves, ShipHold, r) + Net(moves, Expedition, r)
  {
    if moves == [] {
      EmptyNets(planets, r);
      EmptyNets(facilities, r);
    } else {
      var before, m := moves[..|moves| - 1], moves[|moves| - 1];
      assert moves == before + [m];
      assert AllInRange(before, planets, facilities);
      OwnedIsTheSumOfItsAccounts(before, planets, facilities, r);
      SumAppend(before, m, OwnedEffectOn(r));
      PlanetsNetAppend(before, m, planets, r);
      EscrowNetAppend(before, m, facilities, r);
      NetAppend(before, m);
    }
  }
}
