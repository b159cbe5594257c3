/** The stock ledger (`movimientos_stock`): an append-only sequence of signed
    movements, shared by every service that posts stock. */
module Kardex {
  import opened Common

  datatype MovementKind = ENTRADA | SALIDA | AJUSTE_POS | AJUSTE_NEG | DEVOLUCION | AJUSTE_MANUAL

  /** The name the `tipo` column stores. */
  function KindName(k: MovementKind): string {
    match k
    case ENTRADA => "ENTRADA"
    case SALIDA => "SALIDA"
    case AJUSTE_POS => "AJUSTE_POS"
    case AJUSTE_NEG => "AJUSTE_NEG"
    case DEVOLUCION => "DEVOLUCION"
    case AJUSTE_MANUAL => "AJUSTE_MANUAL"
  }

  /** One ledger row: the product, the kind, the quantity as stored (a signed number),
      the dispatch it belongs to if any, the registering user, the note and the author. */
  datatype Movement = Movement(
    product: nat,
    kind: MovementKind,
    quantity: int,
    dispatch: Option<nat>,
    registeredBy: Option<string>,
    note: string,
    createdBy: string)

  /** The ledger sum for a product: the sum of the stored quantities of its movements.
      Rows of other products never enter it, and a product that only ever received
      stock has a non-negative sum. */
  function Net(ms: seq<Movement>, product: nat): (r: int)
    ensures (forall i :: 0 <= i < |ms| ==> ms[i].product != product) ==> r == 0
    ensures (forall i :: 0 <= i < |ms| && ms[i].product == product ==> ms[i].quantity >= 0) ==> r >= 0
  {
    if ms == [] then 0
    else Net(ms[..|ms| - 1], product) + (if ms[|ms| - 1].product == product then ms[|ms| - 1].quantity else 0)
  }

  lemma {:induction false} NetAppend(a: seq<Movement>, b: seq<Movement>, product: nat)
    ensures Net(a + b, product) == Net(a, product) + Net(b, product)
    decreases |b|
  {
    if b == [] {
      assert a + b == a;
    } else {
      assert (a + b)[..|a + b| - 1] == a + b[..|b| - 1];
      NetAppend(a, b[..|b| - 1], product);
    }
  }

  /** Appending one movement moves its product's sum by its quantity and leaves every
      other product's sum alone. */
  lemma NetAppendOne(ms: seq<Movement>, m: Movement, product: nat)
    ensures Net(ms + [m], product) == Net(ms, product) + (if m.product == product then m.quantity else 0)
  {
    assert (ms + [m])[..|ms + [m]| - 1] == ms;
  }

  /** The ledger table. Rows are only ever appended. */
  class Ledger {
    var movements: seq<Movement>

    constructor ()
      ensures movements == []
    {
      movements := [];
    }

    method Append(m: Movement)
      modifies this
      ensures movements == old(movements) + [m]
    {
      movements := movements + [m];
    }
  }
}
