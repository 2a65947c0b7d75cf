/** The generation registry: one row per logical collection and source, in a live and in an
isolated rebuild namespace. */
module GenerationStore {
  import opened Storage
  import opened Replacement

  datatype Token = Token(kind: Kind, rebuild: bool)

  type Table = map<Token, map<Source, nat>>

  function RowsOf(t: Table, token: Token): map<Source, nat> {
    if token in t then t[token] else map[]
  }

  class Generations {
    var table: Table

    constructor ()
      ensures table == map[]
    {
      table := map[];
    }

    /** A failed read counts as generation 0. */
    function CurrentGeneration(token: Token, s: Source, readable: bool): nat
      reads this
    {
      if readable then Row(RowsOf(table, token), s) else 0
    }

    /** The one write that reports its failure. */
    method SetGeneration(token: Token, s: Source, g: nat, stored: bool) returns (ok: bool)
      modifies this
      ensures ok == stored
      ensures RowsOf(table, token) == if stored then RowsOf(old(table), token)[s := g] else RowsOf(old(table), token)
      ensures forall t :: t != token ==> RowsOf(table, t) == RowsOf(old(table), t)
    {
      if stored {
        table := table[token := RowsOf(table, token)[s := g]];
      }
      ok := stored;
    }

    method ClearGeneration(token: Token, s: Source, stored: bool)
      modifies this
      ensures RowsOf(table, token) == if stored then RowsOf(old(table), token) - {s} else RowsOf(old(table), token)
      ensures forall t :: t != token ==> RowsOf(table, t) == RowsOf(old(table), t)
    {
      if stored {
        table := table[token := RowsOf(table, token) - {s}];
      }
    }

    /** The renamed rows override those of the new token and leave the old one. */
    method RenameCollection(from: Token, to: Token, stored: bool)
      requires from != to
      modifies this
      ensures RowsOf(table, to) == if stored then RowsOf(old(table), to) + RowsOf(old(table), from) else RowsOf(old(table), to)
      ensures RowsOf(table, from) == if stored then map[] else RowsOf(old(table), from)
      ensures forall t :: t != from && t != to ==> RowsOf(table, t) == RowsOf(old(table), t)
    {
      if stored {
        table := table[to := RowsOf(table, to) + RowsOf(table, from)][from := map[]];
      }
    }

    method ClearCollectionToken(token: Token, stored: bool)
      modifies this
      ensures RowsOf(table, token) == if stored then map[] else RowsOf(old(table), token)
      ensures forall t :: t != token ==> RowsOf(table, t) == RowsOf(old(table), t)
    {
      if stored {
        table := table[token := map[]];
      }
    }
  }
}
