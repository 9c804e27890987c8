/**
 * Properties of the sales query compiler: the placeholders are numbered densely
 * from 1, each one names the value the request meant for it, the count query and
 * the row query share the WHERE text and its values, and the individual steps of
 * the builder append exactly what their parameter asks for.
 */
module SalesServiceProofs {
  import opened Wrappers
  import opened Strings
  import opened JsMath
  import opened SalesService

  /**
   * The builder invariant: `next` is one past the last value, the clauses own the
   * placeholders 1 .. next-1 in order, and each clause with its values substituted
   * is the condition the request asked for.
   */
  ghost predicate Sound(b: Builder, conds: seq<Condition>)
  {
    && b.next == |b.params| + 1
    && |b.clauses| == |conds|
    && AllSlots(b.clauses) == Range(1, b.next)
    && forall i :: 0 <= i < |b.clauses| ==>
         Within(b.clauses[i], |b.params|) && Resolve(b.clauses[i], b.params) == conds[i]
  }

  /** Membership in a range is the interval test. */
  lemma RangeMembers(lo: nat, hi: nat)
    requires lo <= hi
    ensures forall k :: k in Range(lo, hi) <==> lo <= k < hi
  {
    forall k | lo <= k < hi
      ensures k in Range(lo, hi)
    {
      assert Range(lo, hi)[k - lo] == k;
    }
  }

  lemma RangeConcat(a: nat, b: nat, c: nat)
    requires a <= b <= c
    ensures Range(a, b) + Range(b, c) == Range(a, c)
  {
  }

  /** Appending values after a clause's placeholders does not change what it means. */
  lemma ResolvePrefix(c: Clause, p: seq<Value>, extra: seq<Value>)
    requires Within(c, |p|)
    ensures Within(c, |p + extra|)
    ensures Resolve(c, p + extra) == Resolve(c, p)
  {
    match c
    case In(_, f, n) =>
      assert (p + extra)[f - 1 .. f - 1 + n] == p[f - 1 .. f - 1 + n];
    case TagsLike(f, n) =>
      assert (p + extra)[f - 1 .. f - 1 + n] == p[f - 1 .. f - 1 + n];
    case _ =>
  }

  /** One builder step: a clause whose placeholders are exactly the newly appended values. */
  lemma {:induction false} Extend(b: Builder, conds: seq<Condition>, c: Clause, ps: seq<Value>, cond: Condition)
    requires Sound(b, conds)
    requires First(c) == b.next && Width(c) == |ps|
    requires Within(c, |b.params + ps|) && Resolve(c, b.params + ps) == cond
    ensures Sound(Builder(b.clauses + [c], b.params + ps, b.next + |ps|), conds + [cond])
  {
    var cs := b.clauses + [c];
    assert cs[..|cs| - 1] == b.clauses;
    assert AllSlots(cs) == AllSlots(b.clauses) + Slots(c);
    RangeConcat(1, b.next, b.next + |ps|);
    forall i | 0 <= i < |b.clauses|
      ensures Within(cs[i], |b.params + ps|) && Resolve(cs[i], b.params + ps) == (conds + [cond])[i]
    {
      ResolvePrefix(b.clauses[i], b.params, ps);
    }
  }

  /** The slice of `p + ps` that starts right after `p` is `ps`. */
  lemma SuffixSlice(p: seq<Value>, ps: seq<Value>)
    ensures (p + ps)[|p| .. |p| + |ps|] == ps
  {
  }

  lemma {:induction false} SearchStep(b: Builder, conds: seq<Condition>, f: Field)
    requires Sound(b, conds)
    ensures Sound(AddSearch(b, f), conds + SearchConds(f))
  {
    if Truthy(f) {
      var v := TextValue(Pattern(AsText(f)));
      Extend(b, conds, Search(b.next), [v], NameOrPhoneLike(v));
    } else {
      assert conds + [] == conds;
    }
  }

  lemma {:induction false} FilterStep(b: Builder, conds: seq<Condition>, f: Field, column: string)
    requires Sound(b, conds)
    ensures Sound(AddFilter(b, f, column), conds + FilterConds(f, column))
  {
    if Truthy(f) {
      var vs := TextValues(ValuesOf(f));
      SuffixSlice(b.params, vs);
      Extend(b, conds, In(column, b.next, |vs|), vs, ColumnIn(column, vs));
    } else {
      assert conds + [] == conds;
    }
  }

  lemma {:induction false} TagsStep(b: Builder, conds: seq<Condition>, f: Field)
    requires Sound(b, conds)
    ensures Sound(AddTags(b, f), conds + TagConds(f))
  {
    if Truthy(f) {
      var vs := PatternValues(ValuesOf(f));
      SuffixSlice(b.params, vs);
      Extend(b, conds, TagsLike(b.next, |vs|), vs, TagsLikeAny(vs));
    } else {
      assert conds + [] == conds;
    }
  }

  lemma {:induction false} RangeStep(b: Builder, conds: seq<Condition>, f: Field, column: string, op: string)
    requires Sound(b, conds)
    ensures Sound(AddRange(b, f, column, op), conds + RangeConds(f, column, op))
  {
    if Truthy(f) {
      var v := BoundValue(f);
      Extend(b, conds, Cmp(column, op, b.next), [v], Compare(column, op, v));
    } else {
      assert conds + [] == conds;
    }
  }

  /** Regrouping a concatenation; stated once so that `RunSound` need not search for it. */
  lemma Assoc(x: seq<Condition>, y: seq<Condition>, z: seq<Condition>)
    ensures x + y + z == x + (y + z)
  {
  }

  /** One step of the list keeps the invariant, adding the step's conditions. */
  lemma ApplySound(b: Builder, conds: seq<Condition>, s: Step)
    requires Sound(b, conds)
    ensures Sound(Apply(b, s), conds + StepConds(s))
  {
    match s
    case FilterOn(f, col) => FilterStep(b, conds, f, col);
    case TagsOn(f) => TagsStep(b, conds, f);
    case RangeOn(f, col, op) => RangeStep(b, conds, f, col, op);
  }

  /** Running a list of steps keeps the invariant, adding their conditions in order. */
  lemma {:induction false} RunSound(b: Builder, conds: seq<Condition>, steps: seq<Step>)
    requires Sound(b, conds)
    ensures Sound(Run(b, steps), conds + AllStepConds(steps))
    decreases |steps|
  {
    if |steps| == 0 {
      assert conds + [] == conds;
    } else {
      var c1 := conds + StepConds(steps[0]);
      ApplySound(b, conds, steps[0]);
      RunSound(Apply(b, steps[0]), c1, steps[1..]);
      assert AllStepConds(steps) == StepConds(steps[0]) + AllStepConds(steps[1..]);
      Assoc(conds, StepConds(steps[0]), AllStepConds(steps[1..]));
    }
  }

  /** The whole builder run keeps the invariant, with the request's conditions. */
  lemma {:induction false} WhereSound(q: QuerySpec)
    ensures Sound(Where(q), Intended(q))
  {
    var e := Builder([], [], 1);
    assert Sound(e, []);
    SearchStep(e, [], q.search);
    assert [] + SearchConds(q.search) == SearchConds(q.search);
    RunSound(AddSearch(e, q.search), SearchConds(q.search), Steps(q));
  }

  /**
   * The compiled WHERE clauses mean what the request asked for: there is one
   * clause per requested condition, in order, and substituting the bound values
   * for its placeholders gives that condition, values and all.
   */
  lemma CompileMatchesIntended(q: QuerySpec)
    ensures Compile(q).Ok? ==>
              var c := Compile(q).value;
              && c.nextIndex == |c.params| + 1
              && |c.clauses| == |Intended(q)|
              && forall i :: 0 <= i < |c.clauses| ==>
                   Within(c.clauses[i], |c.params|) && Resolve(c.clauses[i], c.params) == Intended(q)[i]
  {
    WhereSound(q);
  }

  // ---------------------------------------------------------------------------
  // Placeholders in the rendered text

  lemma PlaceholdersCons(t: Token, rest: seq<Token>)
    ensures Placeholders([t] + rest) == TokenPlaceholders(t) + Placeholders(rest)
  {
    assert ([t] + rest)[0] == t;
    assert ([t] + rest)[1..] == rest;
  }

  lemma {:induction false} PlaceholdersAppend(a: seq<Token>, b: seq<Token>)
    ensures Placeholders(a + b) == Placeholders(a) + Placeholders(b)
  {
    if |a| == 0 {
      assert a + b == b;
    } else {
      calc {
        Placeholders(a + b);
        == { assert (a + b)[0] == a[0]; assert (a + b)[1..] == a[1..] + b; }
        TokenPlaceholders(a[0]) + Placeholders(a[1..] + b);
        == { PlaceholdersAppend(a[1..], b); }
        TokenPlaceholders(a[0]) + (Placeholders(a[1..]) + Placeholders(b));
      }
    }
  }

  /** Placeholders of a short literal token list, one token at a time. */
  lemma Placeholders3(x: Token, y: Token, z: Token)
    ensures Placeholders([x, y, z]) == TokenPlaceholders(x) + TokenPlaceholders(y) + TokenPlaceholders(z)
  {
    PlaceholdersCons(z, []);
    PlaceholdersCons(y, [z]);
    PlaceholdersCons(x, [y, z]);
    assert [x] + [y, z] == [x, y, z];
    assert [y] + [z] == [y, z];
  }

  lemma {:induction false} PlaceholderListSlots(f: nat, n: nat)
    ensures Placeholders(PlaceholderList(f, n)) == Range(f, f + n)
    decreases n
  {
    if n > 1 {
      PlaceholderListSlots(f + 1, n - 1);
      PlaceholdersAppend([Ph(f), Lit(", ")], PlaceholderList(f + 1, n - 1));
      PlaceholdersCons(Lit(", "), []);
      PlaceholdersCons(Ph(f), [Lit(", ")]);
      assert [Ph(f)] + [Lit(", ")] == [Ph(f), Lit(", ")];
    } else if n == 1 {
      PlaceholdersCons(Ph(f), []);
      assert [Ph(f)] + [] == [Ph(f)];
    }
  }

  lemma {:induction false} TagConditionsSlots(f: nat, n: nat)
    ensures Placeholders(TagConditions(f, n)) == Range(f, f + n)
    decreases n
  {
    if n > 1 {
      TagConditionsSlots(f + 1, n - 1);
      PlaceholdersAppend([Lit("tags ILIKE "), Ph(f), Lit(" OR ")], TagConditions(f + 1, n - 1));
      Placeholders3(Lit("tags ILIKE "), Ph(f), Lit(" OR "));
    } else if n == 1 {
      PlaceholdersCons(Ph(f), []);
      PlaceholdersCons(Lit("tags ILIKE "), [Ph(f)]);
      assert [Lit("tags ILIKE ")] + [Ph(f)] == [Lit("tags ILIKE "), Ph(f)];
    }
  }

  /** The placeholder numbers a clause's text mentions: the search one twice, the others once each. */
  function Mentions(c: Clause): seq<nat>
  {
    if c.Search? then [c.idx, c.idx] else Slots(c)
  }

  function AllMentions(cs: seq<Clause>): seq<nat>
  {
    if |cs| == 0 then [] else AllMentions(cs[..|cs| - 1]) + Mentions(cs[|cs| - 1])
  }

  /**
   * The text of a clause mentions exactly its own placeholders, in order: the
   * search clause writes its one placeholder twice, every other clause writes
   * each of its placeholders once.
   */
  lemma ClausePlaceholders(c: Clause)
    ensures Placeholders(ClauseTokens(c)) == Mentions(c)
    ensures c.Search? ==> Placeholders(ClauseTokens(c)) == [c.idx, c.idx]
    ensures !c.Search? ==> Placeholders(ClauseTokens(c)) == Slots(c)
  {
    match c
    case Search(k) =>
      var a := Lit("(customer_name ILIKE ");
      var m := Lit(" OR phone_number ILIKE ");
      Placeholders3(a, Ph(k), m);
      PlaceholdersCons(Lit(")"), []);
      PlaceholdersCons(Ph(k), [Lit(")")]);
      assert [Ph(k)] + [Lit(")")] == [Ph(k), Lit(")")];
      PlaceholdersAppend([a, Ph(k), m], [Ph(k), Lit(")")]);
      assert ClauseTokens(c) == [a, Ph(k), m] + [Ph(k), Lit(")")];
    case In(col, f, n) =>
      PlaceholderListSlots(f, n);
      PlaceholdersAppend([Lit(col + " IN (")], PlaceholderList(f, n));
      PlaceholdersAppend([Lit(col + " IN (")] + PlaceholderList(f, n), [Lit(")")]);
    case TagsLike(f, n) =>
      TagConditionsSlots(f, n);
      PlaceholdersAppend([Lit("(")], TagConditions(f, n));
      PlaceholdersAppend([Lit("(")] + TagConditions(f, n), [Lit(")")]);
    case Cmp(col, op, k) =>
      PlaceholdersCons(Ph(k), []);
      PlaceholdersCons(Lit(col + " " + op + " "), [Ph(k)]);
      assert [Lit(col + " " + op + " ")] + [Ph(k)] == ClauseTokens(c);
  }

  lemma {:induction false} JoinPlaceholders(cs: seq<Clause>)
    ensures Placeholders(JoinClauses(cs)) == AllMentions(cs)
  {
    if |cs| == 1 {
      ClausePlaceholders(cs[0]);
      assert cs[..0] == [];
      assert AllMentions(cs) == [] + Mentions(cs[0]);
    } else if |cs| > 1 {
      var init := cs[..|cs| - 1];
      JoinPlaceholders(init);
      JoinStep(JoinClauses(init), cs[|cs| - 1]);
    }
  }

  /** Appending " AND " and one more clause appends that clause's mentions. */
  lemma JoinStep(prefix: seq<Token>, last: Clause)
    ensures Placeholders(prefix + [Lit(" AND ")] + ClauseTokens(last))
            == Placeholders(prefix) + Mentions(last)
  {
    var sep := [Lit(" AND ")];
    assert Placeholders(sep) == [] by {
      PlaceholdersCons(Lit(" AND "), []);
      assert sep == [Lit(" AND ")] + [];
    }
    var ct := ClauseTokens(last);
    ClausePlaceholders(last);
    PlaceholdersAppend(prefix + sep, ct);
    PlaceholdersAppend(prefix, sep);
    assert Placeholders(prefix + sep) == Placeholders(prefix);
  }

  lemma {:induction false} MentionsCoverSlots(cs: seq<Clause>)
    ensures forall k :: k in AllMentions(cs) <==> k in AllSlots(cs)
  {
    if |cs| > 0 {
      MentionsCoverSlots(cs[..|cs| - 1]);
      var c := cs[|cs| - 1];
      assert forall k :: k in Mentions(c) <==> k in Slots(c) by {
        if c.Search? {
          assert Slots(c) == [c.idx];
        }
      }
    }
  }

  /** The WHERE text mentions the clauses' placeholders, in clause order. */
  lemma WherePlaceholders(cs: seq<Clause>)
    ensures Placeholders(WhereTokens(cs)) == AllMentions(cs)
  {
    if |cs| > 0 {
      JoinPlaceholders(cs);
      PlaceholdersAppend([Lit("WHERE ")], JoinClauses(cs));
    }
  }

  /** The row query mentions the WHERE placeholders, then the LIMIT and OFFSET ones. */
  lemma DataQueryPlaceholders(whereSql: seq<Token>, field: string, dir: SortDir, next: nat)
    ensures Placeholders(DataQueryText(whereSql, field, dir, next)) == Placeholders(whereSql) + [next, next + 1]
  {
    var head := [Lit("\n    SELECT * FROM sales\n    ")];
    var order := Lit("\n    ORDER BY " + field + " " + DirKeyword(dir) + "\n    LIMIT ");
    var tail := [order, Ph(next), Lit(" OFFSET "), Ph(next + 1), Lit("\n  ")];
    assert DataQueryText(whereSql, field, dir, next) == head + whereSql + tail;
    PlaceholdersAppend(head, whereSql);
    PlaceholdersAppend(head + whereSql, tail);
    PlaceholdersCons(head[0], []);
    assert head == [head[0]] + [];
    PlaceholdersCons(Lit("\n  "), []);
    PlaceholdersCons(Ph(next + 1), [Lit("\n  ")]);
    assert tail == [order, Ph(next), Lit(" OFFSET ")] + ([Ph(next + 1)] + [Lit("\n  ")]);
    Placeholders3(order, Ph(next), Lit(" OFFSET "));
    PlaceholdersAppend([order, Ph(next), Lit(" OFFSET ")], [Ph(next + 1)] + [Lit("\n  ")]);
  }

  /** The count query mentions exactly the WHERE placeholders. */
  lemma CountQueryPlaceholders(whereSql: seq<Token>)
    ensures Placeholders([Lit(CountPrefix)] + whereSql) == Placeholders(whereSql)
  {
    PlaceholdersCons(Lit(CountPrefix), whereSql);
  }

  /** The compiled result numbers its placeholders as the builder left them. */
  ghost predicate Numbered(c: Compiled)
  {
    && c.nextIndex == |c.params| + 1
    && AllSlots(c.clauses) == Range(1, c.nextIndex)
    && c.whereSql == WhereTokens(c.clauses)
  }

  /** The two queries are assembled around the one WHERE text. */
  predicate Assembled(c: Compiled)
  {
    && c.dataQuery == SqlQuery(DataQueryText(c.whereSql, c.sortField, c.sortDir, c.nextIndex),
                               c.params + [NumberValue(c.limit), NumberValue(c.offset)])
    && c.countQuery == SqlQuery([Lit(CountPrefix)] + c.whereSql, c.params)
  }

  lemma CompileAssembled(q: QuerySpec)
    ensures Compile(q).Ok? ==> Numbered(Compile(q).value) && Assembled(Compile(q).value)
  {
    WhereSound(q);
  }

  /**
   * Dense, consecutive placeholders: the WHERE text mentions exactly `$1 .. $n`
   * for the n bound values, the row query adds `$n+1` for LIMIT and `$n+2` for
   * OFFSET, which name the limit and the offset, and every placeholder of either
   * query names one of that query's values.
   */
  ghost predicate DenseQueries(c: Compiled)
  {
    && c.nextIndex == |c.params| + 1
    && (forall k :: k in Placeholders(c.whereSql) <==> 1 <= k <= |c.params|)
    && Placeholders(c.dataQuery.text) == Placeholders(c.whereSql) + [c.nextIndex, c.nextIndex + 1]
    && (forall k :: k in Placeholders(c.dataQuery.text) <==> 1 <= k <= |c.dataQuery.params|)
    && (forall k :: k in Placeholders(c.countQuery.text) <==> 1 <= k <= |c.countQuery.params|)
    && |c.dataQuery.params| == c.nextIndex + 1
    && c.dataQuery.params[c.nextIndex - 1] == NumberValue(c.limit)
    && c.dataQuery.params[c.nextIndex] == NumberValue(c.offset)
  }

  lemma WhereTextDense(c: Compiled)
    requires Numbered(c)
    ensures forall k :: k in Placeholders(c.whereSql) <==> 1 <= k <= |c.params|
  {
    WherePlaceholders(c.clauses);
    MentionsCoverSlots(c.clauses);
    RangeMembers(1, c.nextIndex);
  }

  lemma AssembledIsDense(c: Compiled)
    requires Numbered(c) && Assembled(c)
    ensures DenseQueries(c)
  {
    WhereTextDense(c);
    DataQueryPlaceholders(c.whereSql, c.sortField, c.sortDir, c.nextIndex);
    CountQueryPlaceholders(c.whereSql);
    var n := |c.params|;
    assert Placeholders(c.dataQuery.text) == Placeholders(c.whereSql) + [n + 1, n + 2];
  }

  /** Every compiled request has dense placeholders in both queries. */
  lemma PlaceholdersDense(q: QuerySpec)
    ensures Compile(q).Ok? ==> DenseQueries(Compile(q).value)
  {
    if Compile(q).Ok? {
      CompileAssembled(q);
      AssembledIsDense(Compile(q).value);
    }
  }

  /** The first placeholder owned by a list of clauses is its first clause's. */
  lemma {:induction false} AllSlotsHead(cs: seq<Clause>)
    requires |cs| > 0 && Width(cs[0]) > 0
    ensures |AllSlots(cs)| > 0 && AllSlots(cs)[0] == First(cs[0])
  {
    if |cs| == 1 {
      assert cs[..0] == [];
      assert AllSlots(cs) == [] + Slots(cs[0]);
    } else {
      var init := cs[..|cs| - 1];
      AllSlotsHead(init);
    }
  }

  /** Under the invariant a clause is the search clause exactly when its condition is the search. */
  lemma SoundSearch(b: Builder, conds: seq<Condition>)
    requires Sound(b, conds)
    ensures forall i :: 0 <= i < |b.clauses| ==> (b.clauses[i].Search? <==> conds[i].NameOrPhoneLike?)
  {
  }

  /** No step after the search asks for a name-or-phone search. */
  lemma {:induction false} StepsHaveNoSearch(steps: seq<Step>)
    ensures forall x :: x in AllStepConds(steps) ==> !x.NameOrPhoneLike?
    decreases |steps|
  {
    if |steps| > 0 {
      StepsHaveNoSearch(steps[1..]);
    }
  }

  /** Every condition a step asks for is among the conditions of the list. */
  lemma {:induction false} StepCondsIn(steps: seq<Step>, i: nat)
    requires i < |steps|
    ensures forall x :: x in StepConds(steps[i]) ==> x in AllStepConds(steps)
    decreases i
  {
    if i > 0 {
      StepCondsIn(steps[1..], i - 1);
      assert steps[1..][i - 1] == steps[i];
    }
  }

  lemma {:induction false} AllStepCondsAppend(x: seq<Step>, y: seq<Step>)
    ensures AllStepConds(x + y) == AllStepConds(x) + AllStepConds(y)
    decreases |x|
  {
    if |x| == 0 {
      assert x + y == y;
    } else {
      calc {
        AllStepConds(x + y);
        == { assert (x + y)[0] == x[0]; assert (x + y)[1..] == x[1..] + y; }
        StepConds(x[0]) + AllStepConds(x[1..] + y);
        == { AllStepCondsAppend(x[1..], y); }
        StepConds(x[0]) + (AllStepConds(x[1..]) + AllStepConds(y));
      }
    }
  }

  /** Steps whose parameter is falsy change nothing and ask for nothing. */
  lemma {:induction false} QuietRun(b: Builder, steps: seq<Step>)
    requires forall i :: 0 <= i < |steps| ==> !Truthy(steps[i].field)
    ensures Run(b, steps) == b && AllStepConds(steps) == []
    decreases |steps|
  {
    if |steps| > 0 {
      assert Apply(b, steps[0]) == b;
      QuietRun(b, steps[1..]);
    }
  }

  /** In the request's conditions only the first can be the search, and it is when search is set. */
  lemma IntendedSearchFirst(q: QuerySpec)
    ensures forall i :: 0 <= i < |Intended(q)| ==>
              (Intended(q)[i].NameOrPhoneLike? <==> i == 0 && Truthy(q.search))
  {
    var s: seq<Condition> := SearchConds(q.search);
    var r: seq<Condition> := AllStepConds(Steps(q));
    StepsHaveNoSearch(Steps(q));
    forall i | |s| <= i < |s + r|
      ensures !(s + r)[i].NameOrPhoneLike?
    {
      assert (s + r)[i] == r[i - |s|];
    }
  }

  /**
   * The search clause comes first and is the one clause that writes a single
   * placeholder twice; it is `$1`, bound to the search text wrapped in `%`.
   */
  lemma SearchClauseFirst(q: QuerySpec)
    ensures Truthy(q.search) ==>
              && |Where(q).clauses| > 0 && |Where(q).params| > 0
              && Where(q).clauses[0] == Search(1)
              && Placeholders(ClauseTokens(Search(1))) == [1, 1]
              && Where(q).params[0] == TextValue("%" + AsText(q.search) + "%")
    ensures forall i :: 0 <= i < |Where(q).clauses| ==>
              (Where(q).clauses[i].Search? <==> i == 0 && Truthy(q.search))
  {
    var b := Where(q);
    WhereSound(q);
    IntendedSearchFirst(q);
    SoundSearch(b, Intended(q));
    ClausePlaceholders(Search(1));
    if Truthy(q.search) {
      assert Intended(q)[0] == NameOrPhoneLike(TextValue(Pattern(AsText(q.search))));
      AllSlotsHead(b.clauses);
    }
  }

  // ---------------------------------------------------------------------------
  // The individual builder steps

  /**
   * `addFilter`: an absent or empty field adds nothing; otherwise exactly one
   * `column IN (...)` clause with one placeholder per value, numbered from the
   * current index, and exactly those values appended in order, duplicates kept.
   * A string field has one value more than it has commas.
   */
  lemma AddFilterAppends(b: Builder, f: Field, column: string)
    ensures !Truthy(f) ==> AddFilter(b, f, column) == b
    ensures Truthy(f) ==>
              var r := AddFilter(b, f, column);
              var n := |ValuesOf(f)|;
              && |r.clauses| == |b.clauses| + 1
              && r.clauses[..|b.clauses|] == b.clauses
              && r.clauses[|b.clauses|] == In(column, b.next, n)
              && Placeholders(ClauseTokens(r.clauses[|b.clauses|])) == Range(b.next, b.next + n)
              && r.params[..|b.params|] == b.params
              && |r.params| == |b.params| + n
              && (forall i :: 0 <= i < n ==> r.params[|b.params| + i] == TextValue(ValuesOf(f)[i]))
              && r.next == b.next + n
    ensures f.Str? && f.s != "" ==> |ValuesOf(f)| == Occurrences(f.s, ',') + 1
  {
    if Truthy(f) {
      var r := AddFilter(b, f, column);
      ClausePlaceholders(r.clauses[|b.clauses|]);
    }
  }

  /**
   * Tags: one parenthesised OR of `tags ILIKE $k`, one placeholder per tag, and
   * each bound value is the tag wrapped in `%` for substring matching.
   */
  lemma AddTagsAppends(b: Builder, f: Field)
    ensures !Truthy(f) ==> AddTags(b, f) == b
    ensures Truthy(f) ==>
              var r := AddTags(b, f);
              var n := |ValuesOf(f)|;
              && |r.clauses| == |b.clauses| + 1
              && r.clauses[..|b.clauses|] == b.clauses
              && r.clauses[|b.clauses|] == TagsLike(b.next, n)
              && ClauseTokens(r.clauses[|b.clauses|]) == [Lit("(")] + TagConditions(b.next, n) + [Lit(")")]
              && Placeholders(ClauseTokens(r.clauses[|b.clauses|])) == Range(b.next, b.next + n)
              && r.params[..|b.params|] == b.params
              && |r.params| == |b.params| + n
              && (forall i :: 0 <= i < n ==> r.params[|b.params| + i] == TextValue("%" + ValuesOf(f)[i] + "%"))
              && r.next == b.next + n
  {
    if Truthy(f) {
      var r := AddTags(b, f);
      ClausePlaceholders(r.clauses[|b.clauses|]);
    }
  }

  /** A comparison asked for by a list of steps comes from a range step with a present bound. */
  lemma {:induction false} CompareInSteps(steps: seq<Step>, col: string, op: string, v: Value)
    requires Compare(col, op, v) in AllStepConds(steps)
    ensures exists i :: && 0 <= i < |steps| && steps[i] == RangeOn(steps[i].field, col, op)
                        && Truthy(steps[i].field) && v == BoundValue(steps[i].field)
    decreases |steps|
  {
    if Compare(col, op, v) in StepConds(steps[0]) {
      assert steps[0] == RangeOn(steps[0].field, col, op);
    } else {
      CompareInSteps(steps[1..], col, op, v);
      var i :| && 0 <= i < |steps[1..]| && steps[1..][i] == RangeOn(steps[1..][i].field, col, op)
               && Truthy(steps[1..][i].field) && v == BoundValue(steps[1..][i].field);
      assert steps[1..][i] == steps[i + 1];
    }
  }

  /** A comparison of the request's conditions comes from one of the four range steps. */
  lemma CompareFrom(q: QuerySpec, col: string, op: string, v: Value)
    requires Compare(col, op, v) in Intended(q)
    ensures || (col == "age" && op == ">=" && Truthy(q.minAge) && v == BoundValue(q.minAge))
            || (col == "age" && op == "<=" && Truthy(q.maxAge) && v == BoundValue(q.maxAge))
            || (col == "date" && op == ">=" && Truthy(q.startDate) && v == BoundValue(q.startDate))
            || (col == "date" && op == "<=" && Truthy(q.endDate) && v == BoundValue(q.endDate))
  {
    var st := Steps(q);
    assert Compare(col, op, v) !in SearchConds(q.search);
    CompareInSteps(st, col, op, v);
    var i :| && 0 <= i < |st| && st[i] == RangeOn(st[i].field, col, op)
             && Truthy(st[i].field) && v == BoundValue(st[i].field);
    assert i == 5 || i == 6 || i == 7 || i == 8 by {
      assert i != 0 && i != 1 && i != 2 && i != 3 && i != 4;
    }
  }

  /**
   * Age and date bounds: the request's conditions hold a comparison for a
   * bound exactly when that bound is present, against the value as it arrived,
   * and no other comparison on that column and operator.
   */
  lemma RangesAsked(q: QuerySpec, v: Value)
    ensures Compare("age", ">=", v) in Intended(q) <==> Truthy(q.minAge) && v == BoundValue(q.minAge)
    ensures Compare("age", "<=", v) in Intended(q) <==> Truthy(q.maxAge) && v == BoundValue(q.maxAge)
    ensures Compare("date", ">=", v) in Intended(q) <==> Truthy(q.startDate) && v == BoundValue(q.startDate)
    ensures Compare("date", "<=", v) in Intended(q) <==> Truthy(q.endDate) && v == BoundValue(q.endDate)
  {
    var st := Steps(q);
    StepCondsIn(st, 5);
    StepCondsIn(st, 6);
    StepCondsIn(st, 7);
    StepCondsIn(st, 8);
    if Compare("age", ">=", v) in Intended(q) { CompareFrom(q, "age", ">=", v); }
    if Compare("age", "<=", v) in Intended(q) { CompareFrom(q, "age", "<=", v); }
    if Compare("date", ">=", v) in Intended(q) { CompareFrom(q, "date", ">=", v); }
    if Compare("date", "<=", v) in Intended(q) { CompareFrom(q, "date", "<=", v); }
  }

  /**
   * Min and max are taken as given, never swapped or checked against each
   * other: swapping two different age bounds changes the conditions.
   */
  lemma RangesNotSwapped(q: QuerySpec)
    requires Truthy(q.minAge) && Truthy(q.maxAge) && q.minAge != q.maxAge
    ensures Intended(q.(minAge := q.maxAge, maxAge := q.minAge)) != Intended(q)
  {
    var a := q.(minAge := q.maxAge, maxAge := q.minAge);
    var st := Steps(q);
    var pre := st[..5];
    assert Steps(a)[..5] == pre;
    assert st == pre + st[5..] && Steps(a) == pre + Steps(a)[5..];
    AllStepCondsAppend(pre, st[5..]);
    AllStepCondsAppend(pre, Steps(a)[5..]);
    var k := |SearchConds(q.search)| + |AllStepConds(pre)|;
    assert AllStepConds(st[5..])[0] == Compare("age", ">=", BoundValue(q.minAge));
    assert AllStepConds(Steps(a)[5..])[0] == Compare("age", ">=", BoundValue(q.maxAge));
    assert Intended(q)[k] == AllStepConds(st[5..])[0];
    assert Intended(a)[k] == AllStepConds(Steps(a)[5..])[0];
  }

  // ---------------------------------------------------------------------------
  // Requests with nothing to filter

  predicate NoFilters(q: QuerySpec)
  {
    && !Truthy(q.search)
    && !Truthy(q.region) && !Truthy(q.gender) && !Truthy(q.paymentMethod) && !Truthy(q.category)
    && !Truthy(q.tags)
    && !Truthy(q.minAge) && !Truthy(q.maxAge) && !Truthy(q.startDate) && !Truthy(q.endDate)
  }

  /**
   * There are no WHERE clauses exactly when no search or filter is set; then
   * `whereSQL` is the empty string, nothing is bound and the index stays at 1.
   */
  lemma NoFiltersNoWhere(q: QuerySpec)
    ensures Where(q).clauses == [] <==> NoFilters(q)
    ensures NoFilters(q) ==>
              Where(q).params == [] && Where(q).next == 1
              && ToSql(WhereTokens(Where(q).clauses)) == ""
  {
    var st := Steps(q);
    if NoFilters(q) {
      assert forall i :: 0 <= i < |st| ==> !Truthy(st[i].field);
      QuietRun(Builder([], [], 1), st);
    } else {
      WhereSound(q);
      if !Truthy(q.search) {
        var k := if Truthy(q.region) then 0 else if Truthy(q.gender) then 1
          else if Truthy(q.paymentMethod) then 2 else if Truthy(q.category) then 3
          else if Truthy(q.tags) then 4 else if Truthy(q.minAge) then 5
          else if Truthy(q.maxAge) then 6 else if Truthy(q.startDate) then 7 else 8;
        StepCondsIn(st, k);
        assert StepConds(st[k])[0] in AllStepConds(st);
      }
    }
  }

  /** A request whose only filter is the region gets one IN clause over the region's values. */
  lemma OnlyRegion(q: QuerySpec)
    requires Truthy(q.region)
    requires NoFilters(q.(region := Absent))
    ensures var vs := ValuesOf(q.region);
            Where(q) == Builder([In("customer_region", 1, |vs|)], TextValues(vs), 1 + |vs|)
  {
    var st := Steps(q);
    assert forall i :: 0 <= i < |st[1..]| ==> !Truthy(st[1..][i].field);
    QuietRun(AddFilter(Builder([], [], 1), q.region, "customer_region"), st[1..]);
  }

  // ---------------------------------------------------------------------------
  // Rendered text

  lemma {:induction false} ToSqlAppend(a: seq<Token>, b: seq<Token>)
    ensures ToSql(a + b) == ToSql(a) + ToSql(b)
    decreases |a|
  {
    if |a| == 0 {
      assert a + b == b;
    } else {
      calc {
        ToSql(a + b);
        == { assert (a + b)[0] == a[0]; assert (a + b)[1..] == a[1..] + b; }
        TokenText(a[0]) + ToSql(a[1..] + b);
        == { ToSqlAppend(a[1..], b); }
        TokenText(a[0]) + (ToSql(a[1..]) + ToSql(b));
      }
    }
  }

  lemma ToSqlCons(t: Token, rest: seq<Token>)
    ensures ToSql([t] + rest) == TokenText(t) + ToSql(rest)
  {
    assert ([t] + rest)[1..] == rest;
  }

  /** The LIMIT and OFFSET placeholders of a query without WHERE values. */
  lemma PagingText()
    ensures ToSql([Ph(1), Lit(" OFFSET "), Ph(2), Lit("\n  ")]) == "$1" + " OFFSET " + "$2" + "\n  "
  {
    var t3 := [Lit("\n  ")];
    var t2 := [Ph(2)] + t3;
    var t1 := [Lit(" OFFSET ")] + t2;
    assert [Ph(1), Lit(" OFFSET "), Ph(2), Lit("\n  ")] == [Ph(1)] + t1;
    assert ToSql(t3) == "\n  " by { ToSqlCons(Lit("\n  "), []); }
    assert ToSql(t2) == "$2" + "\n  " by {
      ToSqlCons(Ph(2), t3);
      assert NatToString(2) == "2";
    }
    assert ToSql(t1) == " OFFSET " + "$2" + "\n  " by { ToSqlCons(Lit(" OFFSET "), t2); }
    ToSqlCons(Ph(1), t1);
    assert NatToString(1) == "1";
  }

  /** Two literal pieces render as their texts, one after the other. */
  lemma TwoLits(x: string, y: string)
    ensures ToSql([Lit(x), Lit(y)]) == x + y
  {
    ToSqlCons(Lit(y), []);
    ToSqlCons(Lit(x), [Lit(y)]);
    assert [Lit(x)] + [Lit(y)] == [Lit(x), Lit(y)];
  }

  lemma DefaultDataTokens()
    ensures DataQueryText([], "date", Desc, 1)
            == [Lit("\n    SELECT * FROM sales\n    "), Lit("\n    ORDER BY date DESC\n    LIMIT ")]
               + [Ph(1), Lit(" OFFSET "), Ph(2), Lit("\n  ")]
  {
    assert "\n    ORDER BY " + "date" + " " + DirKeyword(Desc) + "\n    LIMIT "
        == "\n    ORDER BY date DESC\n    LIMIT ";
  }

  /** The row query of a request without WHERE clauses, sorted by date, newest first. */
  lemma DefaultDataText()
    ensures ToSql(DataQueryText([], "date", Desc, 1))
            == "\n    SELECT * FROM sales\n    " + "\n    ORDER BY date DESC\n    LIMIT "
               + ("$1" + " OFFSET " + "$2" + "\n  ")
  {
    DefaultDataTokens();
    TwoLits("\n    SELECT * FROM sales\n    ", "\n    ORDER BY date DESC\n    LIMIT ");
    PagingText();
    ToSqlAppend([Lit("\n    SELECT * FROM sales\n    "), Lit("\n    ORDER BY date DESC\n    LIMIT ")],
                [Ph(1), Lit(" OFFSET "), Ph(2), Lit("\n  ")]);
  }

  /** The default order "desc" sorts descending. */
  lemma DescendingDefault()
    ensures SortDirection("desc") == Desc
  {
    assert LowerAscii("desc") == "desc";
  }

  /**
   * A request with no search, no filter, and no sorting or paging parameters
   * gets the first 10 rows by date, newest first, with no WHERE restriction,
   * and counts the whole table.
   */
  lemma NoFilterDefaults(q: QuerySpec)
    requires NoFilters(q)
    requires q.sortBy.Absent? && q.sortOrder.Absent? && q.page.None? && q.limit.None?
    ensures Compile(q).Ok?
    ensures var c := Compile(q).value;
            && c.whereSql == [] && c.params == []
            && c.sortField == "date" && c.sortDir == Desc
            && c.limit == Finite(10) && c.offset == Finite(0)
            && ToSql(c.dataQuery.text)
               == "\n    SELECT * FROM sales\n    " + "\n    ORDER BY date DESC\n    LIMIT "
                  + ("$1" + " OFFSET " + "$2" + "\n  ")
            && ToSql(c.countQuery.text) == "SELECT COUNT(*) FROM sales "
  {
    NoFiltersNoWhere(q);
    DescendingDefault();
    DefaultDataText();
    ToSqlCons(Lit(CountPrefix), []);
  }

  /** The direction test ignores case but wants exactly "asc". */
  lemma DirectionExamples()
    ensures SortDirection("ASC") == Asc && SortDirection("Asc") == Asc
    ensures SortDirection("ascending") == Desc && SortDirection("DESC") == Desc
  {
    assert LowerAscii("ASC") == "asc";
    assert LowerAscii("Asc") == "asc";
    assert |LowerAscii("ascending")| == 9;
    assert LowerAscii("DESC")[0] == 'd';
  }

  lemma RegionClauseTokens()
    ensures WhereTokens([In("customer_region", 1, 2)])
            == [Lit("WHERE "), Lit("customer_region IN (")] + [Ph(1), Lit(", "), Ph(2), Lit(")")]
  {
    var c := In("customer_region", 1, 2);
    assert PlaceholderList(2, 1) == [Ph(2)];
    assert PlaceholderList(1, 2) == [Ph(1), Lit(", ")] + [Ph(2)];
    assert "customer_region" + " IN (" == "customer_region IN (";
    assert JoinClauses([c]) == ClauseTokens(c);
  }

  lemma ListText()
    ensures ToSql([Ph(1), Lit(", "), Ph(2), Lit(")")]) == "$1" + ", " + "$2" + ")"
  {
    var t3 := [Lit(")")];
    var t2 := [Ph(2)] + t3;
    var t1 := [Lit(", ")] + t2;
    assert [Ph(1), Lit(", "), Ph(2), Lit(")")] == [Ph(1)] + t1;
    assert ToSql(t3) == ")" by { ToSqlCons(Lit(")"), []); }
    assert ToSql(t2) == "$2" + ")" by {
      ToSqlCons(Ph(2), t3);
      assert NatToString(2) == "2";
    }
    assert ToSql(t1) == ", " + "$2" + ")" by { ToSqlCons(Lit(", "), t2); }
    ToSqlCons(Ph(1), t1);
    assert NatToString(1) == "1";
  }

  /** The text of a two-value region clause. */
  lemma RegionClauseText()
    ensures ToSql(WhereTokens([In("customer_region", 1, 2)]))
            == "WHERE " + "customer_region IN (" + ("$1" + ", " + "$2" + ")")
  {
    RegionClauseTokens();
    TwoLits("WHERE ", "customer_region IN (");
    ListText();
    ToSqlAppend([Lit("WHERE "), Lit("customer_region IN (")], [Ph(1), Lit(", "), Ph(2), Lit(")")]);
  }

  /** A comma-joined pair of regions becomes one IN clause with two placeholders. */
  lemma RegionExample(q: QuerySpec, a: string, b: string)
    requires ',' !in a && ',' !in b
    requires q.region == Str(a + "," + b) && NoFilters(q.(region := Absent))
    ensures Where(q).params == [TextValue(a), TextValue(b)]
    ensures ToSql(WhereTokens(Where(q).clauses)) == "WHERE " + "customer_region IN (" + ("$1" + ", " + "$2" + ")")
  {
    OnlyRegion(q);
    SplitFree(b, ',');
    SplitAtSeparator(a, ',', b);
    RegionClauseText();
  }

  /** An empty piece between two commas is still bound, as the empty string. */
  lemma EmptyPieceExample(q: QuerySpec, a: string, b: string)
    requires ',' !in a && ',' !in b
    requires q.region == Str(a + ",," + b) && NoFilters(q.(region := Absent))
    ensures Where(q).params == [TextValue(a), TextValue(""), TextValue(b)]
  {
    OnlyRegion(q);
    SplitFree(b, ',');
    SplitAtSeparator("", ',', b);
    assert a + ",," + b == a + [','] + ("" + [','] + b);
    SplitAtSeparator(a, ',', "" + [','] + b);
  }
}
