/**
  The filtered list queries of the Postgres repository (`GetMarketingData`
  and `GetSalesData`). Both build the same shape of statement: a fixed
  SELECT, an optional WHERE made of up to three conditions joined by
  " AND ", and a fixed ORDER BY, with every filter value passed as a
  positional argument. The two differ only in the SELECT, the id column
  and the ORDER BY list, collected here in a `ListSpec`.
 */
module ListQuery {
  import opened Wrappers
  import opened Decimal
  import opened Strings
  import opened Strconv
  import opened Placeholders

  /**
    What tells one list statement from the other: the selected columns and
    the table (together the base query), the id column the IN list filters
    on, and the ORDER BY list.
   */
  datatype ListSpec = ListSpec(columns: seq<string>, table: string, idColumn: string, orderBy: string) {
    function BaseQuery(): string {
      "SELECT " + Join(columns, ", ") + " FROM " + table
    }
  }

  const MarketingList := ListSpec(
    ["id", "date", "source_id", "expense", "leads", "trials_scheduled", "trials_conducted", "payments",
     "total_amount", "is_saved", "created_at", "updated_at"],
    "marketing_data", "source_id", "date DESC, source_id")

  const SalesList := ListSpec(
    ["id", "date", "team_id", "leads", "trials_scheduled", "trials_conducted", "payments", "total_amount",
     "kaspi_refund", "is_saved", "created_at", "updated_at"],
    "sales_data", "team_id", "date DESC, team_id")

  /** The fixed parts of a statement hold no `$` and cannot merge with a neighbouring placeholder. */
  predicate WellFormed(spec: ListSpec) {
    && (forall i | 0 <= i < |spec.columns| :: NoDollar(spec.columns[i]))
    && NoDollar(spec.table)
    && NoDollar(spec.idColumn) && Clean(spec.idColumn)
    && NoDollar(spec.orderBy) && Clean(spec.orderBy)
  }

  lemma {:induction false} BaseQueryClean(spec: ListSpec)
    requires WellFormed(spec)
    ensures NoDollar(spec.BaseQuery()) && Clean(spec.BaseQuery())
  {
    var cols := Join(spec.columns, ", ");
    NoDollarJoin(spec.columns, ", ");
    NoDollarAppend("SELECT ", cols);
    NoDollarAppend("SELECT " + cols, " FROM ");
    NoDollarAppend("SELECT " + cols + " FROM ", spec.table);
  }

  /** Both repository statements are well formed. */
  lemma {:induction false} MarketingListWellFormed()
    ensures WellFormed(MarketingList)
  {
    MarketingColumnsNoDollar();
    assert NoDollar(MarketingList.table);
    assert NoDollar(MarketingList.idColumn) && Clean(MarketingList.idColumn);
    assert NoDollar(MarketingList.orderBy) && Clean(MarketingList.orderBy);
  }

  lemma {:induction false} MarketingColumnsNoDollar()
    ensures forall i | 0 <= i < |MarketingList.columns| :: NoDollar(MarketingList.columns[i])
  {
  }

  lemma {:induction false} SalesListWellFormed()
    ensures WellFormed(SalesList)
  {
    SalesColumnsNoDollar();
    assert NoDollar(SalesList.table);
    assert NoDollar(SalesList.idColumn) && Clean(SalesList.idColumn);
    assert NoDollar(SalesList.orderBy) && Clean(SalesList.orderBy);
  }

  lemma {:induction false} SalesColumnsNoDollar()
    ensures forall i | 0 <= i < |SalesList.columns| :: NoDollar(SalesList.columns[i])
  {
  }

  // ---------------------------------------------------------------------------
  // Id tokens

  /** An id token as the builder reads it: trimmed, then `strconv.Atoi`. */
  function ParseId(token: string): Option<int> {
    Atoi(TrimSpace(token))
  }

  /** What ParseId makes of each token, in input order. */
  function Parsed(ids: seq<string>): (ps: seq<Option<int>>)
    ensures |ps| == |ids|
  {
    seq(|ids|, i requires 0 <= i < |ids| => ParseId(ids[i]))
  }

  /** The values of the successful parses, in order; a failed parse leaves nothing. */
  function Values(ps: seq<Option<int>>): (vs: seq<int>)
    ensures |vs| <= |ps|
    decreases |ps|
  {
    if |ps| == 0 then []
    else
      var last := match ps[|ps| - 1] case Some(v) => [v] case None => [];
      Values(ps[..|ps| - 1]) + last
  }

  /** The ids of the tokens that parse, in input order. */
  function ValidIds(ids: seq<string>): seq<int> {
    Values(Parsed(ids))
  }

  lemma {:induction false} ValuesSnoc(ps: seq<Option<int>>, p: Option<int>)
    ensures Values(ps + [p]) == Values(ps) + match p case Some(v) => [v] case None => []
  {
    assert (ps + [p])[..|ps|] == ps;
  }

  lemma {:induction false} ValuesAppend(ps: seq<Option<int>>, qs: seq<Option<int>>)
    ensures Values(ps + qs) == Values(ps) + Values(qs)
    decreases |qs|
  {
    if |qs| == 0 {
      assert ps + qs == ps;
    } else {
      var init, last := qs[..|qs| - 1], qs[|qs| - 1];
      assert ps + qs == (ps + init) + [last] && qs == init + [last];
      ValuesAppend(ps, init);
      ValuesSnoc(ps + init, last);
      ValuesSnoc(init, last);
    }
  }

  lemma {:induction false} ValuesEmpty(ps: seq<Option<int>>)
    ensures Values(ps) == [] <==> forall i | 0 <= i < |ps| :: ps[i].None?
    decreases |ps|
  {
    if |ps| > 0 {
      var init, last := ps[..|ps| - 1], ps[|ps| - 1];
      ValuesEmpty(init);
      assert (forall i | 0 <= i < |ps| :: ps[i].None?)
        <==> (forall i | 0 <= i < |init| :: init[i].None?) && last.None?;
    }
  }

  lemma {:induction false} ParsedAppend(a: seq<string>, b: seq<string>)
    ensures Parsed(a + b) == Parsed(a) + Parsed(b)
  {
  }

  /** One more token contributes its id when it parses and nothing otherwise. */
  lemma {:induction false} ValidIdsSnoc(ids: seq<string>, token: string)
    ensures ValidIds(ids + [token]) == ValidIds(ids) + match ParseId(token) case Some(v) => [v] case None => []
  {
    ParsedAppend(ids, [token]);
    ValuesSnoc(Parsed(ids), ParseId(token));
  }

  /** Filtering works token by token: the ids of a concatenation are the concatenated ids. */
  lemma {:induction false} ValidIdsAppend(a: seq<string>, b: seq<string>)
    ensures ValidIds(a + b) == ValidIds(a) + ValidIds(b)
  {
    ParsedAppend(a, b);
    ValuesAppend(Parsed(a), Parsed(b));
  }

  /** No id survives exactly when no token parses. */
  lemma {:induction false} ValidIdsEmpty(ids: seq<string>)
    ensures ValidIds(ids) == [] <==> forall i | 0 <= i < |ids| :: ParseId(ids[i]).None?
  {
    ValuesEmpty(Parsed(ids));
    assert forall i | 0 <= i < |ids| :: Parsed(ids)[i] == ParseId(ids[i]);
  }

  // ---------------------------------------------------------------------------
  // Conditions and arguments

  /** A WHERE condition with the parameter numbers its placeholders carry. */
  datatype Cond = DateFrom(k: nat) | DateTo(k: nat) | IdIn(column: string, ks: seq<nat>)

  /** `n` consecutive parameter numbers starting at `lo`. */
  function Range(lo: nat, n: nat): (r: seq<nat>)
    ensures |r| == n
  {
    seq(n, i requires 0 <= i < n => lo + i)
  }

  function Dollars(ks: seq<nat>): (ps: seq<string>)
    ensures |ps| == |ks|
  {
    seq(|ks|, i requires 0 <= i < |ks| => Dollar(ks[i]))
  }

  /** The text `fmt.Sprintf` gives each condition. */
  function RenderCond(c: Cond): string {
    match c
    case DateFrom(k) => "date >= " + Dollar(k)
    case DateTo(k) => "date <= " + Dollar(k)
    case IdIn(column, ks) => column + " IN (" + Join(Dollars(ks), ",") + ")"
  }

  function RenderAll(conds: seq<Cond>): (texts: seq<string>)
    ensures |texts| == |conds|
  {
    seq(|conds|, i requires 0 <= i < |conds| => RenderCond(conds[i]))
  }

  function Flag(b: bool): nat {
    if b then 1 else 0
  }

  /** The date conditions, lower bound first; their placeholders are numbered from 1. */
  function DateConds(from: string, to: string): seq<Cond> {
    (if from != "" then [DateFrom(1)] else []) + (if to != "" then [DateTo(Flag(from != "") + 1)] else [])
  }

  /** The arguments the date conditions bind. */
  function DateArgs(from: string, to: string): seq<Arg> {
    (if from != "" then [S(from)] else []) + (if to != "" then [S(to)] else [])
  }

  /** The IN condition over the surviving ids, numbered from `start`; none when no id survived. */
  function IdConds(column: string, start: nat, valid: seq<int>): seq<Cond> {
    if valid == [] then [] else [IdIn(column, Range(start, |valid|))]
  }

  function IdArgs(valid: seq<int>): (args: seq<Arg>)
    ensures |args| == |valid|
  {
    seq(|valid|, i requires 0 <= i < |valid| => I(valid[i]))
  }

  /** The conditions the builder emits, in its fixed order: lower date bound, upper date bound, id list. */
  function Conditions(spec: ListSpec, from: string, to: string, ids: seq<string>): seq<Cond> {
    DateConds(from, to) + IdConds(spec.idColumn, |DateArgs(from, to)| + 1, ValidIds(ids))
  }

  /** The positional arguments, in the order they are bound. */
  function Args(from: string, to: string, ids: seq<string>): seq<Arg> {
    DateArgs(from, to) + IdArgs(ValidIds(ids))
  }

  function OrderBySuffix(spec: ListSpec): string {
    " ORDER BY " + spec.orderBy
  }

  /** The statement text for a list of conditions. */
  function QueryText(spec: ListSpec, conds: seq<Cond>): string {
    (if conds == [] then spec.BaseQuery() else spec.BaseQuery() + " WHERE " + Join(RenderAll(conds), " AND "))
    + OrderBySuffix(spec)
  }

  lemma {:induction false} RenderAllSnoc(conds: seq<Cond>, c: Cond)
    ensures RenderAll(conds + [c]) == RenderAll(conds) + [RenderCond(c)]
  {
  }

  lemma {:induction false} RenderAllAppend(xs: seq<Cond>, ys: seq<Cond>)
    ensures RenderAll(xs + ys) == RenderAll(xs) + RenderAll(ys)
  {
  }

  // ---------------------------------------------------------------------------
  // The builder

  /** Converts the id tokens to integers, dropping the ones that do not parse. */
  method FilterIds(ids: seq<string>) returns (validIDs: seq<int>)
    ensures validIDs == ValidIds(ids)
  {
    validIDs := [];
    var i := 0;
    while i < |ids|
      invariant 0 <= i <= |ids|
      invariant validIDs == ValidIds(ids[..i])
    {
      ValidIdsSnoc(ids[..i], ids[i]);
      assert ids[..i + 1] == ids[..i] + [ids[i]];
      var id := ParseId(ids[i]);
      if id.Some? {
        validIDs := validIDs + [id.value];
      }
      i := i + 1;
    }
    assert ids[..i] == ids;
  }

  /**
    The placeholders of the IN list, written into a slice by index and
    numbered on from `argIndex`, with each id appended to the arguments.
   */
  method BindIds(validIDs: seq<int>, argIndex: nat, args: seq<Arg>)
    returns (placeholders: seq<string>, argsOut: seq<Arg>, nextIndex: nat)
    ensures placeholders == Dollars(Range(argIndex, |validIDs|))
    ensures argsOut == args + IdArgs(validIDs)
    ensures nextIndex == argIndex + |validIDs|
  {
    var slots := new string[|validIDs|];
    argsOut, nextIndex := args, argIndex;
    var j := 0;
    while j < |validIDs|
      invariant 0 <= j <= |validIDs|
      invariant nextIndex == argIndex + j
      invariant slots[..j] == Dollars(Range(argIndex, j))
      invariant argsOut == args + IdArgs(validIDs[..j])
    {
      slots[j] := Dollar(nextIndex);
      argsOut := argsOut + [I(validIDs[j])];
      nextIndex := nextIndex + 1;
      j := j + 1;
      assert slots[..j] == Dollars(Range(argIndex, j));
      assert IdArgs(validIDs[..j]) == IdArgs(validIDs[..j - 1]) + [I(validIDs[j - 1])];
    }
    assert validIDs[..j] == validIDs;
    placeholders := slots[..];
  }

  /**
    The date conditions: a lower bound when `from` is set, then an upper
    bound when `to` is set, each numbered with the next parameter number
    and binding its date text.
   */
  method AddDateConditions(from: string, to: string)
    returns (conditions: seq<string>, args: seq<Arg>, argIndex: nat)
    ensures conditions == RenderAll(DateConds(from, to))
    ensures args == DateArgs(from, to)
    ensures argIndex == |args| + 1
  {
    conditions, args, argIndex := [], [], 1;
    ghost var conds: seq<Cond> := [];

    if from != "" {
      RenderAllSnoc(conds, DateFrom(argIndex));
      conditions := conditions + ["date >= " + Dollar(argIndex)];
      conds := conds + [DateFrom(argIndex)];
      args := args + [S(from)];
      argIndex := argIndex + 1;
    }

    if to != "" {
      RenderAllSnoc(conds, DateTo(argIndex));
      conditions := conditions + ["date <= " + Dollar(argIndex)];
      conds := conds + [DateTo(argIndex)];
      args := args + [S(to)];
      argIndex := argIndex + 1;
    }
    assert conds == DateConds(from, to);
  }

  /**
    The IN condition over the ids that parse, numbered on from `argIndex`;
    nothing is added when the list is empty or no id parses.
   */
  method AddIdCondition(column: string, ids: seq<string>, conditions: seq<string>, args: seq<Arg>, argIndex: nat)
    returns (conditions': seq<string>, args': seq<Arg>, argIndex': nat)
    ensures conditions' == conditions + RenderAll(IdConds(column, argIndex, ValidIds(ids)))
    ensures args' == args + IdArgs(ValidIds(ids))
    ensures argIndex' == argIndex + |ValidIds(ids)|
  {
    conditions', args', argIndex' := conditions, args, argIndex;
    if |ids| > 0 {
      var validIDs := FilterIds(ids);

      if |validIDs| > 0 {
        var placeholders;
        placeholders, args', argIndex' := BindIds(validIDs, argIndex, args);
        conditions' := conditions + [column + " IN (" + Join(placeholders, ",") + ")"];
        assert RenderAll(IdConds(column, argIndex, validIDs)) == [RenderCond(IdIn(column, Range(argIndex, |validIDs|)))];
      }
    } else {
      assert ValidIds(ids) == [];
    }
  }

  /**
    Builds the statement and its arguments the way the repository does:
    conditions and arguments grow together while `argIndex` counts the next
    parameter number; the id placeholders are written into a slice by index.
   */
  method BuildListQuery(spec: ListSpec, from: string, to: string, ids: seq<string>)
    returns (query: string, args: seq<Arg>)
    ensures query == QueryText(spec, Conditions(spec, from, to, ids))
    ensures args == Args(from, to, ids)
  {
    var baseQuery := spec.BaseQuery();
    var conditions, argIndex;
    conditions, args, argIndex := AddDateConditions(from, to);
    conditions, args, argIndex := AddIdCondition(spec.idColumn, ids, conditions, args, argIndex);
    RenderAllAppend(DateConds(from, to), IdConds(spec.idColumn, |DateArgs(from, to)| + 1, ValidIds(ids)));

    if |conditions| > 0 {
      query := baseQuery + " WHERE " + Join(conditions, " AND ");
    } else {
      query := baseQuery;
    }
    query := query + " ORDER BY " + spec.orderBy;
  }
}
