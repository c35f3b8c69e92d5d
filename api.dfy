/**
  How the HTTP handlers turn the `source_ids` / `team_ids` query parameter
  into the id tokens the list statements filter on.
 */
module Api {
  import opened Wrappers
  import opened Decimal
  import opened Strings
  import opened Strconv
  import opened ListQuery
  import opened Meaning

  /** No tokens for an absent or empty parameter, otherwise its comma-separated pieces. */
  function IdTokens(param: string): (tokens: seq<string>)
    ensures param == "" <==> tokens == []
    ensures forall i | 0 <= i < |tokens| :: ',' !in tokens[i]
  {
    if param == "" then [] else Split(param, ',')
  }

  /** The tokens are the pieces of the parameter: joined back with commas they give it again. */
  lemma {:induction false} IdTokensJoin(param: string)
    ensures Join(IdTokens(param), ",") == param
  {
    if param != "" {
      JoinSplit(param, ',');
    }
  }

  /** The decimal texts of a list of ids, as a client writes them. */
  function Decimals(ns: seq<int>): (ts: seq<string>)
    ensures |ts| == |ns|
  {
    seq(|ns|, i requires 0 <= i < |ns| => Itoa(ns[i]))
  }

  lemma {:induction false} ItoaNoComma(n: int)
    ensures ',' !in Itoa(n)
  {
    var d := if n < 0 then NatToString(-n) else NatToString(n);
    assert forall i | 0 <= i < |d| :: d[i] != ',';
  }

  /** Each decimal text is read back as its id. */
  lemma {:induction false} ValidIdsDecimals(ns: seq<int>)
    requires forall i | 0 <= i < |ns| :: MinInt <= ns[i] <= MaxInt
    ensures ValidIds(Decimals(ns)) == ns
    decreases |ns|
  {
    if |ns| > 0 {
      var init, last := ns[..|ns| - 1], ns[|ns| - 1];
      var texts := Decimals(init);
      assert Decimals(ns) == texts + [Itoa(last)];
      assert ValidIds(texts + [Itoa(last)]) == init + [last] by {
        ValidIdsDecimals(init);
        ParseIdItoa(last);
        ValidIdsSnoc(texts, Itoa(last));
      }
      assert init + [last] == ns;
    }
  }

  lemma {:induction false} ParseIdItoa(n: int)
    requires MinInt <= n <= MaxInt
    ensures ParseId(Itoa(n)) == Some(n)
  {
    ParseIdPadded("", n, "");
    assert "" + Itoa(n) + "" == Itoa(n);
  }

  /**
    A comma-separated list of in-range ids, as a client writes it, reaches
    the IN list as exactly those ids, in that order.
   */
  lemma {:induction false} IdListRoundTrip(ns: seq<int>)
    requires forall i | 0 <= i < |ns| :: MinInt <= ns[i] <= MaxInt
    ensures ValidIds(IdTokens(Join(Decimals(ns), ","))) == ns
  {
    if |ns| == 0 {
      assert IdTokens(Join(Decimals(ns), ",")) == [];
    } else {
      var ts := Decimals(ns);
      forall i | 0 <= i < |ts|
        ensures ',' !in ts[i]
      {
        ItoaNoComma(ns[i]);
      }
      SplitJoin(ts, ',');
      assert |ts[0]| > 0;
      assert Join(ts, ",") != "";
      ValidIdsDecimals(ns);
    }
  }
}
