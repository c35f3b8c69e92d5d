/**
  The placeholder numbering of a list statement, read off its text: the
  `$<n>` markers of the statement are exactly `$1, $2, ...` up to the
  number of arguments, in order of appearance, so the n-th marker is bound
  to the n-th argument.
 */
module Numbering {
  import opened Strings
  import opened Placeholders
  import opened ListQuery

  /** The parameter numbers a condition carries, in the order it writes them. */
  function Params(c: Cond): seq<nat> {
    match c
    case DateFrom(k) => [k]
    case DateTo(k) => [k]
    case IdIn(_, ks) => ks
  }

  function ParamsAll(conds: seq<Cond>): seq<nat>
    decreases |conds|
  {
    if |conds| == 0 then [] else Params(conds[0]) + ParamsAll(conds[1..])
  }

  /** Every IN condition names a column that holds no `$` and cannot merge with a placeholder. */
  predicate ColumnsClean(conds: seq<Cond>) {
    forall i | 0 <= i < |conds| :: conds[i].IdIn? ==> NoDollar(conds[i].column) && Clean(conds[i].column)
  }

  lemma {:induction false} ParamsAllAppend(xs: seq<Cond>, ys: seq<Cond>)
    ensures ParamsAll(xs + ys) == ParamsAll(xs) + ParamsAll(ys)
    decreases |xs|
  {
    if |xs| == 0 {
      assert xs + ys == ys;
    } else {
      assert (xs + ys)[1..] == xs[1..] + ys;
      ParamsAllAppend(xs[1..], ys);
    }
  }

  lemma {:induction false} RangeAppend(lo: nat, m: nat, n: nat)
    ensures Range(lo, m) + Range(lo + m, n) == Range(lo, m + n)
  {
  }

  /** Concatenation of two texts whose junction cannot merge placeholders keeps both scans. */
  lemma {:induction false} Glue(a: string, b: string)
    requires Clean(a) && Clean(b)
    ensures Scan(a + b) == Scan(a) + Scan(b) && Clean(a + b)
  {
    ScanAppend(a, b);
    CleanAppend(a, b);
  }

  lemma {:induction false} Glue3(a: string, b: string, c: string)
    requires Clean(a) && Clean(b) && Clean(c)
    ensures Scan(a + b + c) == Scan(a) + Scan(b) + Scan(c) && Clean(a + b + c)
  {
    Glue(a, b);
    Glue(a + b, c);
  }

  /** The placeholders of an IN list are the numbers it was built from, in order. */
  lemma {:induction false} ScanDollars(ks: seq<nat>)
    ensures ScanAll(Dollars(ks)) == ks
    ensures forall i | 0 <= i < |ks| :: Clean(Dollars(ks)[i])
    decreases |ks|
  {
    if |ks| > 0 {
      assert Dollars(ks)[1..] == Dollars(ks[1..]);
      ScanDollars(ks[1..]);
      ScanDollar(ks[0]);
      forall i | 0 <= i < |ks|
        ensures Clean(Dollars(ks)[i])
      {
        DollarClean(ks[i]);
      }
    }
  }

  lemma {:induction false} ScanIdList(ks: seq<nat>)
    ensures Scan(Join(Dollars(ks), ",")) == ks && Clean(Join(Dollars(ks), ","))
  {
    ScanDollars(ks);
    ScanJoin(Dollars(ks), ",");
  }

  lemma {:induction false} ScanIdIn(column: string, ks: seq<nat>)
    requires NoDollar(column) && Clean(column)
    ensures Scan(RenderCond(IdIn(column, ks))) == ks
    ensures Clean(RenderCond(IdIn(column, ks)))
  {
    OpenList(column);
    ScanIdList(ks);
    Glue3(column + " IN (", Join(Dollars(ks), ","), ")");
  }

  lemma {:induction false} OpenList(column: string)
    requires NoDollar(column) && Clean(column)
    ensures Scan(column + " IN (") == [] && Clean(column + " IN (") && Scan(")") == []
  {
    NoDollarAppend(column, " IN (");
    ScanNoDollar(column + " IN (");
    ScanNoDollar(")");
  }

  lemma {:induction false} ScanDateBound(prefix: string, k: nat)
    requires prefix == "date >= " || prefix == "date <= "
    ensures Scan(prefix + Dollar(k)) == [k] && Clean(prefix + Dollar(k))
  {
    ScanNoDollar(prefix);
    DollarClean(k);
    ScanDollar(k);
    Glue(prefix, Dollar(k));
  }

  /** Each rendered condition refers to exactly its own parameter numbers. */
  lemma {:induction false} ScanRenderCond(c: Cond)
    requires c.IdIn? ==> NoDollar(c.column) && Clean(c.column)
    ensures Scan(RenderCond(c)) == Params(c) && Clean(RenderCond(c))
  {
    match c
    case DateFrom(k) => ScanDateBound("date >= ", k);
    case DateTo(k) => ScanDateBound("date <= ", k);
    case IdIn(column, ks) => ScanIdIn(column, ks);
  }

  lemma {:induction false} ScanRenderAll(conds: seq<Cond>)
    requires ColumnsClean(conds)
    ensures ScanAll(RenderAll(conds)) == ParamsAll(conds)
    ensures forall i | 0 <= i < |conds| :: Clean(RenderAll(conds)[i])
    decreases |conds|
  {
    if |conds| > 0 {
      assert RenderAll(conds)[1..] == RenderAll(conds[1..]);
      ScanRenderAll(conds[1..]);
      forall i | 0 <= i < |conds|
        ensures Scan(RenderAll(conds)[i]) == Params(conds[i]) && Clean(RenderAll(conds)[i])
      {
        ScanRenderCond(conds[i]);
      }
    }
  }

  /** The statement text refers to the parameter numbers of its conditions, in order, and to no other. */
  lemma {:induction false} ScanQueryText(spec: ListSpec, conds: seq<Cond>)
    requires WellFormed(spec) && ColumnsClean(conds)
    ensures Scan(QueryText(spec, conds)) == ParamsAll(conds)
  {
    var base, suffix := spec.BaseQuery(), OrderBySuffix(spec);
    BaseQueryClean(spec);
    ScanNoDollar(base);
    assert NoDollar(suffix) && Clean(suffix) by {
      NoDollarAppend(" ORDER BY ", spec.orderBy);
    }
    ScanNoDollar(suffix);
    if conds == [] {
      Glue(base, suffix);
    } else {
      ScanWhere(base, conds, suffix);
    }
  }

  lemma {:induction false} ScanWhere(base: string, conds: seq<Cond>, suffix: string)
    requires Clean(base) && Scan(base) == [] && Clean(suffix) && Scan(suffix) == []
    requires ColumnsClean(conds)
    ensures Scan(base + " WHERE " + Join(RenderAll(conds), " AND ") + suffix) == ParamsAll(conds)
  {
    ScanConditionList(conds);
    assert Scan(base + " WHERE ") == [] && Clean(base + " WHERE ") by {
      ScanNoDollar(" WHERE ");
      Glue(base, " WHERE ");
    }
    Glue3(base + " WHERE ", Join(RenderAll(conds), " AND "), suffix);
  }

  lemma {:induction false} ScanConditionList(conds: seq<Cond>)
    requires ColumnsClean(conds)
    ensures Scan(Join(RenderAll(conds), " AND ")) == ParamsAll(conds)
    ensures Clean(Join(RenderAll(conds), " AND "))
  {
    ScanRenderAll(conds);
    ScanJoin(RenderAll(conds), " AND ");
  }

  lemma {:induction false} DateParams(from: string, to: string)
    ensures ParamsAll(DateConds(from, to)) == Range(1, |DateArgs(from, to)|)
  {
    if from != "" && to != "" {
      assert ParamsAll(DateConds(from, to)) == [1] + ParamsAll([DateTo(2)]);
    } else if from != "" {
      assert ParamsAll(DateConds(from, to)) == [1] + ParamsAll([]);
    } else if to != "" {
      assert ParamsAll(DateConds(from, to)) == [1] + ParamsAll([]);
    }
  }

  lemma {:induction false} ConditionsParams(spec: ListSpec, from: string, to: string, ids: seq<string>)
    ensures ParamsAll(Conditions(spec, from, to, ids)) == Range(1, |Args(from, to, ids)|)
  {
    var d, valid := |DateArgs(from, to)|, ValidIds(ids);
    var idConds := IdConds(spec.idColumn, d + 1, valid);
    assert ParamsAll(idConds) == Range(d + 1, |valid|) by {
      if valid != [] {
        assert idConds[1..] == [];
      }
    }
    ParamsAllAppend(DateConds(from, to), idConds);
    DateParams(from, to);
    RangeAppend(1, d, |valid|);
    assert |Args(from, to, ids)| == d + |valid|;
  }

  lemma {:induction false} ConditionsColumnsClean(spec: ListSpec, from: string, to: string, ids: seq<string>)
    requires NoDollar(spec.idColumn) && Clean(spec.idColumn)
    ensures ColumnsClean(Conditions(spec, from, to, ids))
  {
  }

  /**
    The placeholders of a list statement, in order of appearance, are
    `$1` to `$n` for the `n` arguments bound with it: the k-th placeholder
    refers to the k-th argument and every argument is referred to.
   */
  lemma {:induction false} PlaceholdersNumbered(spec: ListSpec, from: string, to: string, ids: seq<string>)
    requires WellFormed(spec)
    ensures Scan(QueryText(spec, Conditions(spec, from, to, ids))) == Range(1, |Args(from, to, ids)|)
  {
    ConditionsParams(spec, from, to, ids);
    ConditionsColumnsClean(spec, from, to, ids);
    ScanQueryText(spec, Conditions(spec, from, to, ids));
  }
}
