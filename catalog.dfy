/** The static library of formations the particles assemble into.
    Each formation is an ordered list of slots; a slot has a position
    normalised to the unit square and the indices of the slots it links to. */
module Catalog {

  datatype Slot = Slot(x: real, y: real, links: seq<nat>)

  /** The formation names, in the key order of the catalog literal. */
  datatype FormationName = Robot | NeuralNetwork | DataFlow | MolecularStructure

  const FormationNames: seq<FormationName> := [Robot, NeuralNetwork, DataFlow, MolecularStructure]

  /** The slots of each formation, as listed in the catalog literal. */
  function Slots(name: FormationName): (f: seq<Slot>)
    ensures 13 <= |f| <= 18
    ensures name == Robot <==> |f| == 18
  {
    match name
    case Robot => RobotSlots()
    case NeuralNetwork => NeuralNetworkSlots()
    case DataFlow => DataFlowSlots()
    case MolecularStructure => MolecularStructureSlots()
  }

  function RobotSlots(): (f: seq<Slot>)
    ensures |f| == 18
  {
    [
      // head
      Slot(0.5, 0.25, [1, 2, 3, 4]),
      Slot(0.45, 0.2, [0, 2]),
      Slot(0.55, 0.2, [0, 1]),
      Slot(0.45, 0.3, [0, 4]),
      Slot(0.55, 0.3, [0, 3]),
      // body
      Slot(0.5, 0.45, [0, 6, 7, 8, 9]),
      Slot(0.42, 0.4, [5, 7]),
      Slot(0.58, 0.4, [5, 6]),
      Slot(0.42, 0.5, [5, 9]),
      Slot(0.58, 0.5, [5, 8]),
      // arms
      Slot(0.3, 0.45, [6, 11]),
      Slot(0.2, 0.52, [10]),
      Slot(0.7, 0.45, [7, 13]),
      Slot(0.8, 0.52, [12]),
      // legs
      Slot(0.46, 0.65, [8, 15]),
      Slot(0.44, 0.8, [14]),
      Slot(0.54, 0.65, [9, 17]),
      Slot(0.56, 0.8, [16])
    ]
  }

  function NeuralNetworkSlots(): (f: seq<Slot>)
    ensures |f| == 13
  {
    [
      // input layer
      Slot(0.15, 0.25, [3, 4, 5, 6]),
      Slot(0.15, 0.4, [3, 4, 5, 6]),
      Slot(0.15, 0.55, [3, 4, 5, 6]),
      // first hidden layer
      Slot(0.35, 0.2, [7, 8, 9, 10]),
      Slot(0.35, 0.35, [7, 8, 9, 10]),
      Slot(0.35, 0.5, [7, 8, 9, 10]),
      Slot(0.35, 0.65, [7, 8, 9, 10]),
      // second hidden layer
      Slot(0.55, 0.25, [11, 12]),
      Slot(0.55, 0.375, [11, 12]),
      Slot(0.55, 0.5, [11, 12]),
      Slot(0.55, 0.625, [11, 12]),
      // output layer
      Slot(0.75, 0.35, []),
      Slot(0.75, 0.55, [])
    ]
  }

  function DataFlowSlots(): (f: seq<Slot>)
    ensures |f| == 13
  {
    [
      // sources
      Slot(0.1, 0.3, [3, 4]),
      Slot(0.1, 0.5, [3, 4, 5]),
      Slot(0.1, 0.7, [4, 5]),
      // processing
      Slot(0.3, 0.25, [6, 7]),
      Slot(0.3, 0.5, [6, 7, 8]),
      Slot(0.3, 0.75, [7, 8]),
      // analysis
      Slot(0.5, 0.2, [9, 10]),
      Slot(0.5, 0.5, [9, 10, 11]),
      Slot(0.5, 0.8, [10, 11]),
      // decision
      Slot(0.7, 0.35, [12]),
      Slot(0.7, 0.55, [12]),
      Slot(0.7, 0.65, [12]),
      // output
      Slot(0.9, 0.5, [])
    ]
  }

  function MolecularStructureSlots(): (f: seq<Slot>)
    ensures |f| == 13
  {
    [
      // central atom
      Slot(0.5, 0.5, [1, 2, 3, 4, 5, 6]),
      // ring
      Slot(0.6, 0.4, [0, 2, 7]),
      Slot(0.65, 0.55, [0, 1, 3]),
      Slot(0.5, 0.7, [0, 2, 4]),
      Slot(0.35, 0.55, [0, 3, 5]),
      Slot(0.4, 0.4, [0, 4, 6]),
      Slot(0.5, 0.3, [0, 5, 1]),
      // outer atoms
      Slot(0.75, 0.3, [1]),
      Slot(0.8, 0.65, [2]),
      Slot(0.5, 0.85, [3]),
      Slot(0.2, 0.65, [4]),
      Slot(0.25, 0.3, [5]),
      Slot(0.5, 0.15, [6])
    ]
  }

  /** The formation chosen by a (never wrapped) formation counter:
      the counter is reduced modulo the number of names. */
  function Selected(current: nat): (name: FormationName)
    ensures current >= |FormationNames| ==> name == Selected(current - |FormationNames|)
  {
    FormationNames[current % |FormationNames|]
  }

  /** Moving the counter on selects the next name in catalog order, wrapping from the
      last back to the first. */
  lemma SelectionNext(current: nat, i: nat)
    requires i < |FormationNames| && Selected(current) == FormationNames[i]
    ensures Selected(current + 1) == FormationNames[(i + 1) % |FormationNames|]
  {
    assert current % |FormationNames| == i;
  }

  /** Every slot lies in the unit square and links only to slots of its own formation. */
  ghost predicate WellFormed(f: seq<Slot>)
  {
    forall i :: 0 <= i < |f| ==> SlotWellFormed(f[i], |f|)
  }

  ghost predicate SlotWellFormed(s: Slot, count: nat)
  {
    && 0.0 <= s.x <= 1.0 && 0.0 <= s.y <= 1.0
    && forall j :: 0 <= j < |s.links| ==> s.links[j] < count
  }

  /** Total number of adjacency entries of a formation. */
  function LinkCount(f: seq<Slot>): nat
  {
    if |f| == 0 then 0 else LinkCount(f[..|f| - 1]) + |f[|f| - 1].links|
  }

  /** The catalog is well formed and no formation has more slots than the robot's 18. */
  lemma CatalogWellFormed(name: FormationName)
    ensures WellFormed(Slots(name))
    ensures |Slots(name)| <= 18
  {
    match name
    case Robot => RobotWellFormed();
    case NeuralNetwork => NeuralNetworkWellFormed();
    case DataFlow => DataFlowWellFormed();
    case MolecularStructure => MolecularStructureWellFormed();
  }

  // One formation literal per lemma keeps each proof obligation small.

  lemma RobotWellFormed()
    ensures WellFormed(RobotSlots())
  {
    var f := RobotSlots();
    forall i | 0 <= i < |f| ensures SlotWellFormed(f[i], |f|) {
    }
  }

  lemma NeuralNetworkWellFormed()
    ensures WellFormed(NeuralNetworkSlots())
  {
    var f := NeuralNetworkSlots();
    forall i | 0 <= i < |f| ensures SlotWellFormed(f[i], |f|) {
    }
  }

  lemma DataFlowWellFormed()
    ensures WellFormed(DataFlowSlots())
  {
    var f := DataFlowSlots();
    forall i | 0 <= i < |f| ensures SlotWellFormed(f[i], |f|) {
    }
  }

  lemma MolecularStructureWellFormed()
    ensures WellFormed(MolecularStructureSlots())
  {
    var f := MolecularStructureSlots();
    forall i | 0 <= i < |f| ensures SlotWellFormed(f[i], |f|) {
    }
  }

  /** Advancing the counter by any whole number of rounds through the catalog
      selects the same formation again. */
  lemma {:induction false} SelectionPeriodic(current: nat, rounds: nat)
    ensures Selected(current + rounds * |FormationNames|) == Selected(current)
  {
    if rounds > 0 {
      SelectionPeriodic(current, rounds - 1);
      assert current + rounds * |FormationNames| == (current + (rounds - 1) * |FormationNames|) + |FormationNames|;
    }
  }

  /** Every formation is selected within one round of the counter. */
  lemma SelectionCovers(name: FormationName)
    ensures exists k :: 0 <= k < |FormationNames| && Selected(k) == name
  {
    match name
    case Robot => assert Selected(0) == name;
    case NeuralNetwork => assert Selected(1) == name;
    case DataFlow => assert Selected(2) == name;
    case MolecularStructure => assert Selected(3) == name;
  }
}
