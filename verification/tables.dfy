/**
 A loan table: a sequence of row labels and a set of named numeric columns,
 each holding one entry per row. This is the shape in which loans reach
 the risk pipeline, and the shape the stress engine hands back.
 */
module Tables {

  datatype Frame = Frame(index: seq<int>, columns: map<string, seq<real>>)
  {
    /** Every column holds exactly one entry per row label. */
    ghost predicate Valid()
    {
      forall c :: c in columns ==> |columns[c]| == |index|
    }

    function Rows(): nat
    {
      |index|
    }
  }

  /** The first position of `key` in `index`, if the label occurs. */
  function Position(index: seq<int>, key: int): (p: nat)
    requires key in index
    ensures p < |index| && index[p] == key
    ensures forall j :: 0 <= j < p ==> index[j] != key
  {
    if index[0] == key then 0 else 1 + Position(index[1..], key)
  }
}
