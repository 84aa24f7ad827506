/** The mutable maps in which the flow analyses keep what is initialized, and the
    exits that hold them (internal/compiler/construction.go,
    internal/compiler/construction_flow.go, internal/compiler/named_results.go). */
module Facts {
  import opened Syntax

  class Facts {
    var known: set<Name>

    constructor (known: set<Name>)
      ensures this.known == known
    {
      this.known := known;
    }

    method Set(x: Name)
      modifies this
      ensures known == old(known) + {x}
    {
      known := known + {x};
    }

    method Clone() returns (copy: Facts)
      ensures fresh(copy) && copy.known == known
    {
      copy := new Facts(known);
    }
  }

  datatype Cell<F> = Cell(state: Facts, flow: F)

  ghost function States<F>(cells: seq<Cell<F>>): set<Facts> {
    set c | c in cells :: c.state
  }

  ghost predicate Distinct<F>(cells: seq<Cell<F>>) {
    forall i, j :: 0 <= i < j < |cells| ==> cells[i].state != cells[j].state
  }

  /** Every map is one of these or was made meanwhile. */
  twostate predicate From<F>(base: set<Facts>, new cells: seq<Cell<F>>) {
    forall i :: 0 <= i < |cells| ==> cells[i].state in base || fresh(cells[i].state)
  }

  /** No exit still to be followed shares its map with these. */
  ghost predicate Apart<F>(cells: seq<Cell<F>>, pending: seq<Cell<F>>, from: nat) {
    forall i, j :: 0 <= i < |cells| && from <= j < |pending| ==> cells[i].state != pending[j].state
  }
}
