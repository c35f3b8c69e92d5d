/**
  What a list statement asks of the database: which conditions it carries,
  in which order, and which rows they accept once their placeholders are
  bound to the arguments. Also the shape of the text and the fact that no
  filter value ever reaches it.
 */
module Meaning {
  import opened Wrappers
  import opened Strings
  import opened Strconv
  import opened Placeholders
  import opened ListQuery

  // ---------------------------------------------------------------------------
  // Condition presence and order

  /** The fixed position of each kind of condition in the WHERE list. */
  function Rank(c: Cond): nat {
    match c
    case DateFrom(_) => 0
    case DateTo(_) => 1
    case IdIn(_, _) => 2
  }

  /**
    A lower date bound is present exactly when `from` is set, an upper one
    exactly when `to` is set, an IN list exactly when some id parsed; they
    come in that order and each at most once.
   */
  lemma {:induction false} ConditionsPresence(spec: ListSpec, from: string, to: string, ids: seq<string>)
    ensures var cs := Conditions(spec, from, to, ids);
      && ((exists i | 0 <= i < |cs| :: cs[i].DateFrom?) <==> from != "")
      && ((exists i | 0 <= i < |cs| :: cs[i].DateTo?) <==> to != "")
      && ((exists i | 0 <= i < |cs| :: cs[i].IdIn?) <==> ValidIds(ids) != [])
      && (forall i, j | 0 <= i < j < |cs| :: Rank(cs[i]) < Rank(cs[j]))
  {
    var cs := Conditions(spec, from, to, ids);
    if from != "" {
      assert cs[0].DateFrom?;
    }
    if to != "" {
      assert cs[Flag(from != "")].DateTo?;
    }
    if ValidIds(ids) != [] {
      assert cs[|cs| - 1].IdIn?;
    }
  }

  // ---------------------------------------------------------------------------
  // The rows a statement accepts

  /** The two columns of a row the WHERE clause looks at: its date and its id column. */
  datatype Row = Row(date: string, refId: int)

  /**
    Whether a condition accepts a row once placeholder `$k` is bound to
    `args[k - 1]`; `le` is the database's ordering of dates.
   */
  predicate CondHolds(le: (string, string) -> bool, c: Cond, args: seq<Arg>, row: Row) {
    match c
    case DateFrom(k) => 1 <= k <= |args| && args[k - 1].S? && le(args[k - 1].text, row.date)
    case DateTo(k) => 1 <= k <= |args| && args[k - 1].S? && le(row.date, args[k - 1].text)
    case IdIn(_, ks) => exists j | 0 <= j < |ks| :: 1 <= ks[j] <= |args| && args[ks[j] - 1] == I(row.refId)
  }

  /** A WHERE clause accepts a row when all its conditions do; an empty condition list accepts every row. */
  predicate WhereHolds(le: (string, string) -> bool, conds: seq<Cond>, args: seq<Arg>, row: Row) {
    forall i | 0 <= i < |conds| :: CondHolds(le, conds[i], args, row)
  }

  lemma {:induction false} IdInHolds(le: (string, string) -> bool, column: string, dateArgs: seq<Arg>, valid: seq<int>, row: Row)
    ensures CondHolds(le, IdIn(column, Range(|dateArgs| + 1, |valid|)), dateArgs + IdArgs(valid), row)
      <==> row.refId in valid
  {
    var ks, args := Range(|dateArgs| + 1, |valid|), dateArgs + IdArgs(valid);
    if row.refId in valid {
      var j :| 0 <= j < |valid| && valid[j] == row.refId;
      assert args[ks[j] - 1] == I(row.refId);
    }
  }

  /**
    A list statement accepts exactly the rows dated no earlier than `from`
    (when set), no later than `to` (when set) and, when at least one id
    parsed, whose id column holds one of the parsed ids. Ids that do not
    parse restrict nothing.
   */
  lemma {:induction false} FilterMeaning(le: (string, string) -> bool, spec: ListSpec, from: string, to: string, ids: seq<string>, row: Row)
    ensures WhereHolds(le, Conditions(spec, from, to, ids), Args(from, to, ids), row)
      <==> && (from == "" || le(from, row.date))
           && (to == "" || le(row.date, to))
           && (ValidIds(ids) == [] || row.refId in ValidIds(ids))
  {
    var cs, args := Conditions(spec, from, to, ids), Args(from, to, ids);
    var valid, d := ValidIds(ids), |DateArgs(from, to)|;
    if valid != [] {
      IdInHolds(le, spec.idColumn, DateArgs(from, to), valid, row);
      assert cs[|cs| - 1] == IdIn(spec.idColumn, Range(d + 1, |valid|));
    }
    if from != "" {
      assert cs[0] == DateFrom(1) && args[0] == S(from);
    }
    if to != "" {
      var k := Flag(from != "");
      assert cs[k] == DateTo(k + 1) && args[k] == S(to);
    }
  }

  /** Ids that all fail to parse give the same statement and arguments as no id list at all. */
  lemma {:induction false} UnparsableIdsIgnored(spec: ListSpec, from: string, to: string, ids: seq<string>)
    requires forall i | 0 <= i < |ids| :: ParseId(ids[i]).None?
    ensures Conditions(spec, from, to, ids) == Conditions(spec, from, to, [])
    ensures Args(from, to, ids) == Args(from, to, [])
  {
    ValidIdsEmpty(ids);
  }

  // ---------------------------------------------------------------------------
  // The text

  /**
    Filter values never reach the statement text: two calls whose filters
    are set alike and which keep the same number of ids produce the same
    text, whatever the dates and ids are.
   */
  lemma {:induction false} TextIndependentOfValues(spec: ListSpec, from: string, to: string, ids: seq<string>,
                                from': string, to': string, ids': seq<string>)
    requires (from == "") == (from' == "") && (to == "") == (to' == "")
    requires |ValidIds(ids)| == |ValidIds(ids')|
    ensures QueryText(spec, Conditions(spec, from, to, ids)) == QueryText(spec, Conditions(spec, from', to', ids'))
  {
    var valid, valid' := ValidIds(ids), ValidIds(ids');
    var start := |DateArgs(from, to)| + 1;
    assert start == |DateArgs(from', to')| + 1;
    assert IdConds(spec.idColumn, start, valid) == IdConds(spec.idColumn, start, valid') by {
      assert valid == [] <==> valid' == [];
    }
    assert DateConds(from, to) == DateConds(from', to');
    assert Conditions(spec, from, to, ids) == Conditions(spec, from', to', ids');
  }

  /**
    The statement starts with the fixed SELECT, ends with the fixed ORDER BY,
    and has anything in between (" WHERE " and the joined conditions)
    exactly when there is a condition.
   */
  lemma {:induction false} QueryShape(spec: ListSpec, conds: seq<Cond>)
    ensures var q, base, suffix := QueryText(spec, conds), spec.BaseQuery(), OrderBySuffix(spec);
      && |q| >= |base| + |suffix|
      && q[..|base|] == base
      && q[|q| - |suffix|..] == suffix
      && (conds == [] <==> |q| == |base| + |suffix|)
      && (conds != [] ==> q[|base|..|base| + 7] == " WHERE ")
  {
    var q, base, suffix := QueryText(spec, conds), spec.BaseQuery(), OrderBySuffix(spec);
    if conds != [] {
      var mid := " WHERE " + Join(RenderAll(conds), " AND ");
      assert q == base + mid + suffix;
      assert q[..|base|] == base;
      assert q[|base|..|base| + 7] == mid[..7];
    }
  }

  // ---------------------------------------------------------------------------
  // The ids

  lemma {:induction false} ValuesMembers(ps: seq<Option<int>>, v: int)
    ensures v in Values(ps) <==> Some(v) in ps
    decreases |ps|
  {
    if |ps| > 0 {
      var init, last := ps[..|ps| - 1], ps[|ps| - 1];
      ValuesMembers(init, v);
      assert ps == init + [last];
    }
  }

  /** The surviving ids are exactly the values of the tokens that parse. */
  lemma {:induction false} ValidIdsMembers(ids: seq<string>, v: int)
    ensures v in ValidIds(ids) <==> Some(v) in Parsed(ids)
  {
    ValuesMembers(Parsed(ids), v);
  }

  /** A decimal id padded with white space on either side reads back as itself. */
  lemma {:induction false} ParseIdPadded(p: string, n: int, q: string)
    requires AllSpace(p) && AllSpace(q)
    requires MinInt <= n <= MaxInt
    ensures ParseId(p + Itoa(n) + q) == Some(n)
  {
    ItoaTrimmed(n);
    TrimSpacePadded(p, Itoa(n), q);
    AtoiItoa(n);
  }
}
