/** The two players of the game and their turn order (TicTacToe/Models.swift). */
module Models {
  import opened Wrappers

  /** A player; the raw value of each case is the mark drawn on the board. */
  datatype Player = X | O {

    /** The opponent, who moves after this player. */
    function Next(): (r: Player)
      ensures r != this
    {
      match this
      case X => O
      case O => X
    }

    /** The string the enum carries as its raw value. */
    function RawValue(): (s: string)
      ensures |s| == 1
    {
      match this
      case X => "X"
      case O => "O"
    }
  }

  /** The failable initializer a `String`-backed enum gets: the case whose raw value is `s`, if any. */
  function FromRawValue(s: string): (r: Option<Player>)
    ensures r.Some? ==> r.value.RawValue() == s
    ensures r.None? ==> s != X.RawValue() && s != O.RawValue()
  {
    if s == "X" then Some(X)
    else if s == "O" then Some(O)
    else None
  }

  /** Taking the turn twice gets back to the same player. */
  lemma NextIsInvolution(p: Player)
    ensures p.Next().Next() == p
  {
  }

  /** The turn passes from X to O and from O to X. */
  lemma NextValues()
    ensures X.Next() == O && O.Next() == X
  {
  }

  /** The two raw values are distinct, and each case is recovered from its own. */
  lemma RawValueRoundTrip(p: Player)
    ensures FromRawValue(p.RawValue()) == Some(p)
    ensures X.RawValue() == "X" && O.RawValue() == "O" && X.RawValue() != O.RawValue()
  {
  }
}
