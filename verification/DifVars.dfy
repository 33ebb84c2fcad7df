/** Variable identifiers in DIF: what the validator lets through, what the emulator asserts, and the tables it
    indexes. */
module DifVars {
  import opened Dif
  import opened DifRun
  import opened DifReach

  datatype Scope = Global | Thread | Local

  /** A declaration in a program's variable table. */
  datatype Var = Var(id: nat, scope: Scope)

  /** The variable tables of a consumer: which static variables exist, and how many thread-local ones there is room
      for. */
  datatype Tabs = Tabs(globals: seq<bool>, tlocals: nat, locals: seq<bool>)

  predicate IsGlobal(op: nat) { op == LDGS || op == STGS || op == LDGAA || op == STGAA }

  predicate IsThread(op: nat) { op == LDTS || op == STTS || op == LDTAA || op == STTAA }

  predicate IsLocal(op: nat) { op == LDLS || op == STLS }

  function ScopeOf(op: nat): Scope {
    if IsGlobal(op) then Global else if IsThread(op) then Thread else Local
  }

  /** The identifier is a built-in variable, which these two loads look up elsewhere. */
  predicate Builtin(i: Instr) {
    (i.op == LDGS || i.op == LDLS) && Index(i) < VAR_OTHER_UBASE
  }

  /** The instruction indexes a variable table. */
  predicate UsesTable(i: Instr) {
    (IsGlobal(i.op) || IsThread(i.op) || IsLocal(i.op)) && !Builtin(i)
  }

  /** The variable with this identifier is in its table. */
  predicate Inside(tabs: Tabs, scope: Scope, id: nat) {
    VAR_OTHER_UBASE <= id &&
    var u := id - VAR_OTHER_UBASE;
    match scope
    case Global => u < |tabs.globals| && tabs.globals[u]
    case Thread => u < tabs.tlocals
    case Local => u < |tabs.locals| && tabs.locals[u]
  }

  // ---------------------------------------------------------------- the emulator's demands

  /** The emulator's assertions on the identifier alone. */
  predicate IdAsserts(i: Instr) {
    UsesTable(i) ==> VAR_OTHER_UBASE <= Index(i)
  }

  /** The emulator's assertions on the identifier and the table entry it reads. */
  predicate TableAsserts(tabs: Tabs, i: Instr) {
    UsesTable(i) ==> Inside(tabs, ScopeOf(i.op), Index(i))
  }

  /** A load that names a built-in variable where the emulator takes it for a user variable. */
  predicate Wild(i: Instr) {
    (i.op == LDTS || i.op == LDGAA || i.op == LDTAA) && Index(i) < VAR_OTHER_UBASE
  }

  /** Of the instructions the validator lets through, exactly the wild ones break an identifier assertion. */
  lemma WildExact(d: Difo, pc: nat)
    requires Valid(d, NREGS) && pc < |d.text|
    ensures IdAsserts(d.text[pc]) <==> !Wild(d.text[pc])
  {
    hide Index;
    assert Passes(d.text[pc], pc, |d.text|, d.intlen, d.strlen, NREGS);
  }

  /** At every turn of every run, the identifier assertions are broken exactly by the wild loads. */
  lemma TurnExact<W>(env: Env<W>, d: Difo, regs: seq<Word>, tup: seq<Key>, world: W, k: nat)
    requires Valid(d, NREGS) && AllBytes(d.text) && DifRun.Tables(env, d.intlen, d.strlen)
    requires |regs| == NREGS && |tup| == NTUPLE + 2
    ensures var r := Run(env, d, Start(|d.text|, regs, tup, world), k);
            !Stopped(|d.text|, r) ==> r.pc < |d.text| && (IdAsserts(d.text[r.pc]) <==> !Wild(d.text[r.pc]))
  {
    hide Valid, Wild, IdAsserts;
    var r := Run(env, d, Start(|d.text|, regs, tup, world), k);
    if !Stopped(|d.text|, r) {
      WildExact(d, r.pc);
    }
  }

  /** A validated program breaks no identifier assertion in any run if it reaches no wild load; it breaks one in some
      run if it surely reaches one.  Where the way is known this is exact. */
  lemma AssertsExact<W(!new)>(d: Difo)
    requires Valid(d, NREGS) && AllBytes(d.text)
    ensures Throughout(d.text, false, i => !Wild(i)) ==> EveryTurn<W>(d, i => IdAsserts(i))
    ensures EveryTurn<Script>(d, i => IdAsserts(i)) ==> Throughout(d.text, true, i => !Wild(i))
    ensures Decided(d.text) ==>
            (EveryTurn<Script>(d, i => IdAsserts(i)) <==> Throughout(d.text, false, i => !Wild(i)))
  {
    hide Valid, EveryTurn, Reach, Wild, IdAsserts, Decided;
    forall n: Node | n.pc < |d.text|
      ensures IdAsserts(d.text[n.pc]) <==> !Wild(d.text[n.pc])
    {
      WildExact(d, n.pc);
    }
    Everywhere<W>(d, i => IdAsserts(i));
    assert Throughout(d.text, false, i => IdAsserts(i)) == Throughout(d.text, false, i => !Wild(i));
    assert Throughout(d.text, true, i => IdAsserts(i)) == Throughout(d.text, true, i => !Wild(i));
  }

  /** The three directions for one property of instructions. */
  lemma Everywhere<W(!new)>(d: Difo, ok: Instr -> bool)
    requires Valid(d, NREGS) && AllBytes(d.text)
    ensures Throughout(d.text, false, ok) ==> EveryTurn<W>(d, ok)
    ensures EveryTurn<Script>(d, ok) ==> Throughout(d.text, true, ok)
    ensures Decided(d.text) ==> (EveryTurn<Script>(d, ok) <==> Throughout(d.text, false, ok))
  {
    hide Valid, EveryTurn, Throughout, Decided;
    if Throughout(d.text, false, ok) {
      ReachedSuffices<W>(d, ok);
    }
    if EveryTurn<Script>(d, ok) {
      SureNecessary(d, ok);
    }
    if Decided(d.text) {
      EveryTurnExact(d, ok);
    }
  }

  /** A wild load after straight-line code breaks the assertion in some run. */
  lemma StraightBreaks(d: Difo, pc: nat)
    requires Valid(d, NREGS) && AllBytes(d.text) && pc < |d.text| && Straight(d.text, pc) && Wild(d.text[pc])
    ensures !EveryTurn<Script>(d, i => IdAsserts(i))
  {
    hide Valid, EveryTurn, Reach, Wild, IdAsserts, Straight;
    var n := StraightReached(d.text, pc);
    ReachGrows(d.text, pc, |d.text|, true);
    AssertsExact<Script>(d);
  }

  /** A wild load behind a test of a global variable: some run goes past the branch and breaks the assertion. */
  lemma GuardedBreaks()
    ensures var d := Difo([Instr(LDGS, 5, 0, 1), Instr(TST, 1, 0, 0), Instr(18, 0, 0, 4), Instr(LDTS, 1, 0, 1),
                           Instr(RET, 0, 0, 1)], 0, 0);
            Valid(d, NREGS) && AllBytes(d.text) && !EveryTurn<Script>(d, i => IdAsserts(i))
  {
    hide EveryTurn, Reach;
    var d := Difo([Instr(LDGS, 5, 0, 1), Instr(TST, 1, 0, 0), Instr(18, 0, 0, 4), Instr(LDTS, 1, 0, 1),
                   Instr(RET, 0, 0, 1)], 0, 0);
    assert Index(d.text[0]) == VAR_OTHER_UBASE;
    var n := GuardedReach(d.text);
    AssertsExact<Script>(d);
  }

  lemma GuardedReach(text: seq<Instr>) returns (n: Node)
    requires |text| == 5 && text[..3] == [Instr(LDGS, 5, 0, 1), Instr(TST, 1, 0, 0), Instr(18, 0, 0, 4)]
    ensures n in Reach(text, 5, true) && n.pc == 3
  {
    hide Reach;
    var first := Put(ENTRY.(pc := 1), 1, NonZero);
    assert text[0] == text[..3][0] && text[1] == text[..3][1] && text[2] == text[..3][2];
    assert Index(text[0]) == VAR_OTHER_UBASE;
    assert ENTRY in Reach(text, 0, true) by {
      Begins(text);
    }
    Reached(text, ENTRY, first, true);
    Reached(text, first, first.(pc := 2), true);
    n := first.(pc := 3);
    Reached(text, first.(pc := 2), n, true);
    ReachGrows(text, 3, 5, true);
  }

  lemma Begins(text: seq<Instr>)
    ensures ENTRY in Reach(text, 0, true)
  {
  }

  /** A wild load in dead code: accepted, and no run ever comes to it. */
  lemma DeadCode<W(!new)>()
    ensures var d := Difo([Instr(BA, 0, 0, 2), Instr(LDTS, 1, 0, 1), Instr(RET, 0, 0, 1)], 0, 0);
            Valid(d, NREGS) && AllBytes(d.text) && Wild(d.text[1]) && EveryTurn<W>(d, i => IdAsserts(i))
  {
    var d := Difo([Instr(BA, 0, 0, 2), Instr(LDTS, 1, 0, 1), Instr(RET, 0, 0, 1)], 0, 0);
    assert Valid(d, NREGS) && AllBytes(d.text);
    assert !Wild(d.text[0]) && Wild(d.text[1]) && !Wild(d.text[2]);
    hide Valid, AllBytes, EveryTurn, Reach, Wild, IdAsserts, Follows;
    DeadReach(d.text);
    AssertsExact<W>(d);
  }

  lemma {:induction false} DeadReach(text: seq<Instr>)
    requires |text| == 3 && text[0] == Instr(BA, 0, 0, 2) && text[2].op == RET
    ensures Reach(text, 3, false) == {ENTRY, ENTRY.(pc := 2)}
  {
    hide Follows;
    var end := ENTRY.(pc := 2);
    assert Follows(text[0], ENTRY) == {end} && Follows(text[2], end) == {} by {
      DeadFollows(text[0], text[2]);
    }
    assert Reach(text, 1, false) == {ENTRY, end};
    assert Reach(text, 2, false) == {ENTRY, end};
  }

  lemma DeadFollows(ba: Instr, ret: Instr)
    requires ba == Instr(BA, 0, 0, 2) && ret.op == RET
    ensures Follows(ba, ENTRY) == {ENTRY.(pc := 2)} && Follows(ret, ENTRY.(pc := 2)) == {}
  {
  }

  /** The first turn of every run breaks the property. */
  ghost predicate BreaksAtOnce<W(!new)>(d: Difo, ok: Instr -> bool)
    requires Valid(d, NREGS) && AllBytes(d.text)
  {
    forall env: Env<W>, regs, tup, world
      | DifRun.Tables(env, d.intlen, d.strlen) && |regs| == NREGS && |tup| == NTUPLE + 2 ::
      var r := Run(env, d, Start(|d.text|, regs, tup, world), 0);
      !Stopped(|d.text|, r) && !ok(d.text[r.pc])
  }

  /** Two programs the validator accepts: a thread-local and a global associative load of a built-in variable.  The
      first turn of every run breaks the assertion. */
  lemma WildAccepted<W(!new)>()
    ensures var d := Difo([Instr(LDTS, 1, 0, 1), Instr(RET, 0, 0, 1)], 0, 0);
            Valid(d, NREGS) && AllBytes(d.text) && BreaksAtOnce<W>(d, i => IdAsserts(i))
    ensures var d := Difo([Instr(LDGAA, 1, 0, 1), Instr(RET, 0, 0, 1)], 0, 0);
            Valid(d, NREGS) && AllBytes(d.text) && BreaksAtOnce<W>(d, i => IdAsserts(i))
  {
    assert !IdAsserts(Instr(LDTS, 1, 0, 1)) && !IdAsserts(Instr(LDGAA, 1, 0, 1));
    hide IdAsserts, Step;
  }

  /** Nor does the validator ask that a user variable be declared: a store to one that is not in the table passes, and
      the first turn of every run indexes the table where there is nothing. */
  lemma UndeclaredAccepted<W(!new)>()
    ensures var d := Difo([Instr(STGS, 5, 0, 1), Instr(RET, 0, 0, 1)], 0, 0);
            Valid(d, NREGS) && AllBytes(d.text) && EveryTurn<W>(d, i => IdAsserts(i))
            && BreaksAtOnce<W>(d, i => TableAsserts(Tabs([], 0, []), i))
  {
    var d := Difo([Instr(STGS, 5, 0, 1), Instr(RET, 0, 0, 1)], 0, 0);
    var i, r := d.text[0], d.text[1];
    assert Index(i) == VAR_OTHER_UBASE;
    assert IdAsserts(i) && IdAsserts(r) && !TableAsserts(Tabs([], 0, []), i);
    assert Valid(d, NREGS) && AllBytes(d.text);
    hide Valid, AllBytes, IdAsserts, TableAsserts, Step, Reach;
    assert EveryTurn<W>(d, i => IdAsserts(i));
  }

  // ---------------------------------------------------------------- where the tables come from

  /** The size of a table of size n when it has doubled until there is room for index u. */
  function Doubled(n: nat, u: nat): (r: nat)
    ensures u < r && n <= r
    decreases if u < n then 0 else u - n + 1
  {
    if u < n then n else Doubled(if n == 0 then 1 else 2 * n, u)
  }

  ghost predicate IsPower(n: nat) {
    n == 1 || (n > 1 && n % 2 == 0 && IsPower(n / 2))
  }

  /** From nothing, a table doubles to the least power of two above the index. */
  lemma {:induction false} DoubledPower(n: nat, u: nat)
    requires n == 0 || n == 1 || (IsPower(n) && n <= 2 * u)
    ensures IsPower(Doubled(n, u)) && u < Doubled(n, u) && (u == 0 ==> Doubled(n, u) == 1)
    ensures u > 0 ==> Doubled(n, u) <= 2 * u
    decreases if u < n then 0 else u - n + 1
  {
    if u >= n {
      assert n > 0 ==> 2 * n / 2 == n;
      DoubledPower(if n == 0 then 1 else 2 * n, u);
    }
  }

  /** Doubling further from a size already reached. */
  lemma {:induction false} DoubledOn(n: nat, w: nat, u: nat)
    ensures Doubled(Doubled(n, w), u) == if u < Doubled(n, w) then Doubled(n, w) else Doubled(n, u)
    decreases if w < n then 0 else w - n + 1
  {
    if w >= n {
      DoubledOn(if n == 0 then 1 else 2 * n, w, u);
    }
  }

  lemma {:induction false} DoubledLeast(n: nat, w: nat, u: nat)
    requires u < Doubled(n, w)
    ensures Doubled(n, u) <= Doubled(n, w)
    decreases if w < n then 0 else w - n + 1
  {
    if u >= n {
      DoubledLeast(if n == 0 then 1 else 2 * n, w, u);
    }
  }

  /** The variable is in its table after these declarations: a static one if it is declared, a thread-local one if it is
      below the least power of two above one declared. */
  predicate Listed(vars: seq<Var>, scope: Scope, id: nat) {
    VAR_OTHER_UBASE <= id &&
    if scope.Thread? then
      exists v :: v in vars && v.scope.Thread? && VAR_OTHER_UBASE <= v.id &&
                  id - VAR_OTHER_UBASE < Doubled(0, v.id - VAR_OTHER_UBASE)
    else Var(id, scope) in vars
  }

  /** The tables hold just what the declarations put there. */
  ghost predicate BuiltFrom(tabs: Tabs, vars: seq<Var>) {
    forall scope, id: nat :: Inside(tabs, scope, id) <==> Listed(vars, scope, id)
  }

  /** The tables hold just what they held and what the declarations put there. */
  ghost predicate Gained(was: Tabs, tabs: Tabs, vars: seq<Var>) {
    forall scope, id: nat :: Inside(tabs, scope, id) <==> Inside(was, scope, id) || Listed(vars, scope, id)
  }

  /** No table has shrunk. */
  predicate Extends(was: Tabs, tabs: Tabs) {
    |was.globals| <= |tabs.globals| && was.tlocals <= tabs.tlocals && |was.locals| <= |tabs.locals|
  }

  /** A size that has come about by doubling. */
  ghost predicate Rounded(n: nat) {
    n == 0 || exists u :: n == Doubled(0, u)
  }

  function Statics(tabs: Tabs, scope: Scope): seq<bool> { if scope.Local? then tabs.locals else tabs.globals }

  class VState {
    var globals: seq<bool>
    var tlocals: nat
    var locals: seq<bool>

    function View(): Tabs
      reads this
    {
      Tabs(globals, tlocals, locals)
    }

    ghost predicate Valid()
      reads this
    {
      Rounded(tlocals)
    }

    constructor ()
      ensures Valid() && View() == Tabs([], 0, [])
    {
      globals, tlocals, locals := [], 0, [];
    }

    /** A table doubles until it has room for index u. */
    static method Grown(tab: seq<bool>, u: nat) returns (tab': seq<bool>)
      ensures |tab'| == Doubled(|tab|, u) && tab'[..|tab|] == tab && forall k :: |tab| <= k < |tab'| ==> !tab'[k]
    {
      tab' := tab;
      while u >= |tab'|
        invariant |tab| <= |tab'| && tab'[..|tab|] == tab && forall k :: |tab| <= k < |tab'| ==> !tab'[k]
        invariant Doubled(|tab'|, u) == Doubled(|tab|, u)
        decreases u - |tab'|
      {
        var n := if |tab'| == 0 then 1 else 2 * |tab'|;
        tab' := tab' + seq(n - |tab'|, _ => false);
      }
    }

    /** dtrace_difo_init: the tables gain the declared user variables and nothing else. */
    method Init(vars: seq<Var>)
      requires Valid()
      modifies this
      ensures Valid() && Extends(old(View()), View()) && Gained(old(View()), View(), vars)
    {
      var n := 0;
      while n < |vars|
        invariant 0 <= n <= |vars| && Valid() && Extends(old(View()), View()) && Gained(old(View()), View(), vars[..n])
      {
        ghost var was := View();
        Add(vars[n]);
        GainedOn(old(View()), was, View(), vars, n);
        n := n + 1;
      }
      assert vars[..n] == vars;
    }

    /** One declaration. */
    method Add(v: Var)
      requires Valid()
      modifies this
      ensures Valid() && Extends(old(View()), View()) && Gained(old(View()), View(), [v])
    {
      if v.id < VAR_OTHER_UBASE {
        return;
      }
      var u := v.id - VAR_OTHER_UBASE;
      match v.scope
      case Thread =>
        while u >= tlocals
          invariant old(tlocals) <= tlocals && globals == old(globals) && locals == old(locals)
          invariant Doubled(tlocals, u) == Doubled(old(tlocals), u)
          decreases u - tlocals
        {
          tlocals := if tlocals == 0 then 1 else 2 * tlocals;
        }
        ThreadGains(old(View()), View(), v);
      case Local =>
        ghost var was := View();
        locals := Placed(locals, u);
        StaticGains(was, View(), v);
      case Global =>
        ghost var was := View();
        globals := Placed(globals, u);
        StaticGains(was, View(), v);
    }

    /** A static variable's table with the variable in it. */
    static method Placed(tab: seq<bool>, u: nat) returns (tab': seq<bool>)
      ensures |tab'| == Doubled(|tab|, u)
      ensures forall k :: 0 <= k < |tab'| ==> tab'[k] == (k == u || (k < |tab| && tab[k]))
    {
      tab' := Grown(tab, u);
      Entry(tab, tab');
      tab' := tab'[u := true];
    }
  }

  lemma Entry(tab: seq<bool>, tab': seq<bool>)
    requires |tab| <= |tab'| && tab'[..|tab|] == tab
    ensures forall k :: 0 <= k < |tab| ==> tab'[k] == tab[k]
  {
    forall k | 0 <= k < |tab|
      ensures tab'[k] == tab[k]
    {
      assert tab'[..|tab|][k] == tab[k];
    }
  }

  /** One thread-local declaration. */
  lemma ThreadGains(was: Tabs, tabs: Tabs, v: Var)
    requires v.scope.Thread? && VAR_OTHER_UBASE <= v.id && Rounded(was.tlocals)
    requires tabs == was.(tlocals := Doubled(was.tlocals, v.id - VAR_OTHER_UBASE))
    ensures Gained(was, tabs, [v]) && Rounded(tabs.tlocals)
  {
    var u := v.id - VAR_OTHER_UBASE;
    if was.tlocals != 0 {
      var w :| was.tlocals == Doubled(0, w);
      DoubledOn(0, w, u);
      if u < was.tlocals {
        DoubledLeast(0, w, u);
      }
    }
    forall scope, id: nat
      ensures Inside(tabs, scope, id) <==> Inside(was, scope, id) || Listed([v], scope, id)
    {
      if scope.Thread? {
        assert Listed([v], scope, id) <==> VAR_OTHER_UBASE <= id && id - VAR_OTHER_UBASE < Doubled(0, u) by {
          assert v in [v];
        }
      }
    }
  }

  /** One declaration of a static variable. */
  lemma StaticGains(was: Tabs, tabs: Tabs, v: Var)
    requires v.scope != Thread && VAR_OTHER_UBASE <= v.id && tabs.tlocals == was.tlocals
    requires
      var u, tab, tab' := v.id - VAR_OTHER_UBASE, Statics(was, v.scope), Statics(tabs, v.scope);
      && |tab'| == Doubled(|tab|, u)
      && forall k :: 0 <= k < |tab'| ==> tab'[k] == (k == u || (k < |tab| && tab[k]))
    requires tabs == if v.scope.Local? then was.(locals := tabs.locals) else was.(globals := tabs.globals)
    ensures Gained(was, tabs, [v])
  {
    hide Doubled;
    forall scope, id: nat
      ensures Inside(tabs, scope, id) <==> Inside(was, scope, id) || Listed([v], scope, id)
    {
    }
  }

  lemma GainedOn(first: Tabs, was: Tabs, tabs: Tabs, vars: seq<Var>, n: nat)
    requires n < |vars| && Gained(first, was, vars[..n]) && Gained(was, tabs, [vars[n]])
    ensures Gained(first, tabs, vars[..n + 1])
  {
    hide Inside;
    assert vars[..n + 1] == vars[..n] + [vars[n]];
    forall scope, id: nat
      ensures Listed(vars[..n + 1], scope, id) <==> Listed(vars[..n], scope, id) || Listed([vars[n]], scope, id)
    {
      ListedOn(vars[..n], vars[n], scope, id);
    }
  }

  lemma ListedOn(vars: seq<Var>, v: Var, scope: Scope, id: nat)
    ensures Listed(vars + [v], scope, id) <==> Listed(vars, scope, id) || Listed([v], scope, id)
  {
    hide Doubled;
  }

  /** A new consumer's tables after dtrace_difo_init. */
  method InitNew(vars: seq<Var>) returns (tabs: Tabs)
    ensures BuiltFrom(tabs, vars)
  {
    var vstate := new VState();
    vstate.Init(vars);
    tabs := vstate.View();
  }

  /** Every user variable the instruction names is in its table after these declarations. */
  predicate Names(vars: seq<Var>, i: Instr) {
    UsesTable(i) ==> Listed(vars, ScopeOf(i.op), Index(i))
  }

  /** With tables built from the declarations, a validated program indexes them only where there is a variable, in every
      run, if that is declared for every instruction it reaches; it fails to in some run if one it surely reaches is
      not.  Where the way is known this is exact. */
  lemma TablesExact<W(!new)>(d: Difo, vars: seq<Var>, tabs: Tabs)
    requires Valid(d, NREGS) && AllBytes(d.text) && BuiltFrom(tabs, vars)
    ensures Throughout(d.text, false, i => Names(vars, i)) ==> EveryTurn<W>(d, i => TableAsserts(tabs, i))
    ensures EveryTurn<Script>(d, i => TableAsserts(tabs, i)) ==> Throughout(d.text, true, i => Names(vars, i))
    ensures Decided(d.text) ==>
            (EveryTurn<Script>(d, i => TableAsserts(tabs, i)) <==> Throughout(d.text, false, i => Names(vars, i)))
  {
    hide Valid, EveryTurn, Reach, Decided, Inside, Listed, UsesTable, Index, ScopeOf;
    Everywhere<W>(d, i => TableAsserts(tabs, i));
    assert Throughout(d.text, false, i => TableAsserts(tabs, i)) == Throughout(d.text, false, i => Names(vars, i));
    assert Throughout(d.text, true, i => TableAsserts(tabs, i)) == Throughout(d.text, true, i => Names(vars, i));
  }

  /** Every user variable the program names is declared in its variable table with that scope. */
  predicate DeclaresAll(d: Difo, vars: seq<Var>) {
    forall pc :: 0 <= pc < |d.text| && UsesTable(d.text[pc]) ==> Var(Index(d.text[pc]), ScopeOf(d.text[pc].op)) in vars
  }

  /** A validated program that declares what it uses indexes its tables rightly in every run, if it reaches no wild
      load. */
  lemma DeclaredInside<W(!new)>(d: Difo, vars: seq<Var>, tabs: Tabs)
    requires Valid(d, NREGS) && AllBytes(d.text) && Throughout(d.text, false, i => !Wild(i))
    requires DeclaresAll(d, vars) && BuiltFrom(tabs, vars)
    ensures EveryTurn<W>(d, i => TableAsserts(tabs, i))
  {
    hide Valid, EveryTurn, Reach, Wild, UsesTable, Index, ScopeOf, Inside, Doubled;
    forall n | n in Reach(d.text, |d.text|, false) && n.pc < |d.text|
      ensures Names(vars, d.text[n.pc])
    {
      WildExact(d, n.pc);
    }
    TablesExact<W>(d, vars, tabs);
  }
}
