/**
 The audit outcome table of internal/audit/postgres_store.go, compiled to a parameterised SQL
 CASE expression. Clauses refer to their arguments by placeholder number, as $n does; evaluating
 them is first-match evaluation of the CASE, with None for NULL.
 */
module Audit {
  import opened Common
  import opened Sorting

  /** A rule with an empty outcome looks it up by the value of one metadata key. */
  datatype Rule = Rule(outcome: string, metadataKey: string, metadataOutcomes: map<string, string>)

  type Table = map<string, Rule>

  function Classify(table: Table, action: string, metadata: map<string, string>): Option<string> {
    if action !in table then None
    else
      var rule := table[action];
      if rule.outcome != "" then Some(rule.outcome)
      else if rule.metadataKey !in metadata then None
      else if metadata[rule.metadataKey] !in rule.metadataOutcomes then None
      else Some(rule.metadataOutcomes[metadata[rule.metadataKey]])
  }

  /** A static rule gives its outcome whatever the metadata; no event of an unknown action has one. */
  lemma {:induction false} StaticRuleMeans(table: Table, action: string, metadata: map<string, string>)
    ensures action !in table ==> Classify(table, action, metadata).None?
    ensures action in table && table[action].outcome != "" ==>
              Classify(table, action, metadata) == Some(table[action].outcome)
  {
  }

  /** A keyed rule gives what its table says of the key's value, and nothing without the key or for another value. */
  lemma {:induction false} KeyedRuleMeans(table: Table, action: string, key: string, outcomes: map<string, string>,
                                          metadata: map<string, string>, outcome: string)
    requires action in table && table[action] == Rule("", key, outcomes)
    ensures Classify(table, action, metadata) == Some(outcome) <==>
              exists value :: (key, value) in metadata.Items && (value, outcome) in outcomes.Items
    ensures Classify(table, action, metadata).None? <==>
              key !in metadata.Keys || metadata[key] !in outcomes.Keys
  {
    if Classify(table, action, metadata) == Some(outcome) {
      assert (key, metadata[key]) in metadata.Items && (metadata[key], outcome) in outcomes.Items;
    }
  }

  // ---------------------------------------------------------------- the CASE expression

  datatype Arg = Text(text: string) | Texts(texts: seq<string>)

  datatype Clause =
    | WhenMetadata(action: nat, key: nat, value: nat, outcome: nat)
    | WhenAnyOf(actions: nat, outcome: nat)

  /** The arguments bound to the placeholders first, first + 1, ... */
  datatype Bound = Bound(first: nat, args: seq<Arg>) {
    predicate HasText(n: nat) {
      first <= n < first + |args| && args[n - first].Text?
    }

    predicate HasTexts(n: nat) {
      first <= n < first + |args| && args[n - first].Texts?
    }

    function TextAt(n: nat): string
      requires HasText(n)
    {
      args[n - first].text
    }

    function TextsAt(n: nat): seq<string>
      requires HasTexts(n)
    {
      args[n - first].texts
    }
  }

  /** Every placeholder of the clause denotes an argument of the type it is cast to. */
  predicate WellBound(c: Clause, b: Bound) {
    match c
    case WhenMetadata(action, key, value, outcome) =>
      b.HasText(action) && b.HasText(key) && b.HasText(value) && b.HasText(outcome)
    case WhenAnyOf(actions, outcome) => b.HasTexts(actions) && b.HasText(outcome)
  }

  function EvalClause(c: Clause, b: Bound, action: string, metadata: map<string, string>): Option<string>
    requires WellBound(c, b)
  {
    match c
    case WhenMetadata(a, k, v, o) =>
      if action == b.TextAt(a) && b.TextAt(k) in metadata && metadata[b.TextAt(k)] == b.TextAt(v)
      then Some(b.TextAt(o)) else None
    case WhenAnyOf(a, o) => if action in b.TextsAt(a) then Some(b.TextAt(o)) else None
  }

  /** First-match evaluation of the first n clauses. */
  function Eval(cs: seq<Clause>, n: nat, b: Bound, action: string, metadata: map<string, string>): Option<string>
    requires n <= |cs| && forall i :: 0 <= i < |cs| ==> WellBound(cs[i], b)
  {
    if n == 0 then None
    else
      var earlier := Eval(cs, n - 1, b, action, metadata);
      if earlier.Some? then earlier else EvalClause(cs[n - 1], b, action, metadata)
  }

  function EvalCase(cs: seq<Clause>, b: Bound, action: string, metadata: map<string, string>): Option<string>
    requires forall i :: 0 <= i < |cs| ==> WellBound(cs[i], b)
  {
    Eval(cs, |cs|, b, action, metadata)
  }

  lemma {:induction false} ClauseExtended(c: Clause, b: Bound, b': Bound, action: string, metadata: map<string, string>)
    requires WellBound(c, b) && b'.first == b.first && b.args <= b'.args
    ensures WellBound(c, b') && EvalClause(c, b', action, metadata) == EvalClause(c, b, action, metadata)
  {
  }

  /** Binding more arguments changes no clause that was bound before. */
  lemma {:induction false} EvalExtended(cs: seq<Clause>, more: seq<Clause>, n: nat, b: Bound, b': Bound,
                                        action: string, metadata: map<string, string>)
    requires n <= |cs| && b'.first == b.first && b.args <= b'.args
    requires forall i :: 0 <= i < |cs| ==> WellBound(cs[i], b)
    requires forall i :: 0 <= i < |cs + more| ==> WellBound((cs + more)[i], b')
    ensures Eval(cs + more, n, b', action, metadata) == Eval(cs, n, b, action, metadata)
  {
    if n > 0 {
      EvalExtended(cs, more, n - 1, b, b', action, metadata);
      assert (cs + more)[n - 1] == cs[n - 1];
      ClauseExtended(cs[n - 1], b, b', action, metadata);
    }
  }

  // ---------------------------------------------------------------- compilation

  /** auditOutcomeSQL's parameter counter, argument list and clauses. */
  class Compiler {
    const table: Table
    const first: nat
    var parameter: nat
    var args: seq<Arg>
    var clauses: seq<Clause>

    constructor (table: Table, first: nat)
      ensures Valid() && this.table == table && this.first == first && clauses == [] && args == []
    {
      this.table := table;
      this.first := first;
      parameter := first;
      args := [];
      clauses := [];
    }

    function Env(): Bound
      reads this
    {
      Bound(first, args)
    }

    ghost predicate Valid()
      reads this
    {
      && parameter == first + |args|
      && (forall i :: 0 <= i < |clauses| ==> WellBound(clauses[i], Env()))
    }

    /** The placeholder handed out denotes the value just bound, now and ever after. */
    method Bind(value: Arg) returns (placeholder: nat)
      requires Valid()
      modifies this`parameter, this`args
      ensures Valid() && placeholder == old(parameter)
      ensures args == old(args) + [value] && args[placeholder - first] == value
    {
      placeholder := parameter;
      parameter := parameter + 1;
      args := args + [value];
      assert forall i :: 0 <= i < |clauses| ==> WellBound(clauses[i], old(Env()));
    }

    /** What the expression compiled so far evaluates to. */
    ghost function Value(action: string, metadata: map<string, string>): Option<string>
      requires Valid()
      reads this
    {
      EvalCase(clauses, Env(), action, metadata)
    }

    /** Appends a clause whose arguments were just bound: earlier clauses still win. */
    method AppendClause(c: Clause, ghost before: Bound)
      requires Valid() && WellBound(c, Env())
      requires before.first == first && before.args <= args
      requires forall i :: 0 <= i < |clauses| ==> WellBound(clauses[i], before)
      modifies this`clauses
      ensures Valid()
      ensures forall a: string, m: map<string, string> :: Value(a, m) ==
                if EvalCase(old(clauses), before, a, m).Some? then EvalCase(old(clauses), before, a, m)
                else EvalClause(c, Env(), a, m)
    {
      ghost var cs := clauses;
      clauses := clauses + [c];
      forall a: string, m: map<string, string>
        ensures Value(a, m) ==
                if EvalCase(cs, before, a, m).Some? then EvalCase(cs, before, a, m) else EvalClause(c, Env(), a, m)
      {
        EvalExtended(cs, [c], |cs|, before, Env(), a, m);
      }
    }

    /** WHEN action=$p AND metadata ->> $q=$r THEN $s */
    method BindMetadata(action: string, key: string, value: string, outcome: string) returns (c: Clause)
      requires Valid()
      modifies this`parameter, this`args
      ensures Valid() && old(args) <= args && WellBound(c, Env())
      ensures forall a: string, m: map<string, string> :: EvalClause(c, Env(), a, m) ==
                if a == action && key in m && m[key] == value then Some(outcome) else None
    {
      var p := Bind(Text(action));
      var q := Bind(Text(key));
      var r := Bind(Text(value));
      var s := Bind(Text(outcome));
      c := WhenMetadata(p, q, r, s);
      var n := |old(args)|;
      assert args == old(args) + [Text(action), Text(key), Text(value), Text(outcome)];
      assert args[n] == Text(action) && args[n + 1] == Text(key) && args[n + 2] == Text(value)
          && args[n + 3] == Text(outcome);
    }

    method AddMetadataClause(action: string, key: string, value: string, outcome: string)
      requires Valid()
      modifies this`parameter, this`args, this`clauses
      ensures Valid()
      ensures forall a: string, m: map<string, string> :: Value(a, m) ==
                if old(Value(a, m)).Some? then old(Value(a, m))
                else if a == action && key in m && m[key] == value then Some(outcome) else None
    {
      ghost var before := Env();
      var c := BindMetadata(action, key, value, outcome);
      AppendClause(c, before);
    }

    /** WHEN action = ANY($p) THEN $q */
    method AddStaticClause(actions: seq<string>, outcome: string)
      requires Valid()
      modifies this`parameter, this`args, this`clauses
      ensures Valid()
      ensures forall a: string, m: map<string, string> :: Value(a, m) ==
                if old(Value(a, m)).Some? then old(Value(a, m))
                else if a in actions then Some(outcome) else None
    {
      ghost var before := Env();
      var p := Bind(Texts(actions));
      var q := Bind(Text(outcome));
      var n := |old(args)|;
      assert args == old(args) + [Texts(actions), Text(outcome)];
      assert args[n] == Texts(actions) && args[n + 1] == Text(outcome);
      AppendClause(WhenAnyOf(p, q), before);
    }

    static predicate Keyed(table: Table, action: string) {
      action in table && table[action].outcome == ""
    }

    /** One clause per metadata value of every keyed rule. */
    method CompileKeyed(actions: seq<string>)
      requires Valid() && clauses == [] && Sorted(actions)
      requires forall a :: a in actions <==> Keyed(table, a)
      modifies this`parameter, this`args, this`clauses
      ensures Valid()
      ensures forall a: string, m: map<string, string> :: Value(a, m) ==
                if Keyed(table, a) then Classify(table, a, m) else None
    {
      for i := 0 to |actions|
        invariant Valid()
        invariant forall a: string, m: map<string, string> :: Value(a, m) ==
                    if a in actions[..i] then Classify(table, a, m) else None
      {
        SortedIsDistinct(actions, i);
        CompileRule(actions[i], actions[..i]);
        assert actions[..i + 1] == actions[..i] + [actions[i]];
      }
      assert actions[..|actions|] == actions;
    }

    method CompileRule(action: string, ghost done: seq<string>)
      requires Valid() && Keyed(table, action) && action !in done
      requires forall a: string, m: map<string, string> :: Value(a, m) ==
                 if a in done then Classify(table, a, m) else None
      modifies this`parameter, this`args, this`clauses
      ensures Valid()
      ensures forall a: string, m: map<string, string> :: Value(a, m) ==
                if a in done || a == action then Classify(table, a, m) else None
    {
      var rule := table[action];
      var values := SortedKeys(rule.metadataOutcomes.Keys);
      for j := 0 to |values|
        invariant Valid()
        invariant forall a: string, m: map<string, string> :: Value(a, m) ==
                    if a in done then Classify(table, a, m)
                    else if a == action && rule.metadataKey in m && m[rule.metadataKey] in values[..j]
                    then Some(rule.metadataOutcomes[m[rule.metadataKey]]) else None
      {
        AddMetadataClause(action, rule.metadataKey, values[j], rule.metadataOutcomes[values[j]]);
        assert values[..j + 1] == values[..j] + [values[j]];
      }
      assert values[..|values|] == values;
    }

    /** One clause per outcome, listing all its actions. */
    method CompileStatic(outcomes: seq<string>)
      requires Valid()
      requires forall o :: o in outcomes <==> o != "" && exists a :: a in table && table[a].outcome == o
      requires forall a: string, m: map<string, string> :: Value(a, m) ==
                 if Keyed(table, a) then Classify(table, a, m) else None
      modifies this`parameter, this`args, this`clauses
      ensures Valid()
      ensures forall a: string, m: map<string, string> :: Value(a, m) == Classify(table, a, m)
    {
      for k := 0 to |outcomes|
        invariant Valid()
        invariant forall a: string, m: map<string, string> :: Value(a, m) ==
                    if Keyed(table, a) then Classify(table, a, m)
                    else if a in table && table[a].outcome in outcomes[..k] then Some(table[a].outcome) else None
      {
        var o := outcomes[k];
        assert o in outcomes && o != "";
        var actions := SortedKeys(set a | a in table && table[a].outcome == o);
        AddStaticClause(actions, o);
        assert outcomes[..k + 1] == outcomes[..k] + [o];
      }
      assert outcomes[..|outcomes|] == outcomes;
    }

    /** auditOutcomeSQL: the whole expression means what the classifier computes. */
    method Compile()
      requires Valid() && clauses == []
      modifies this`parameter, this`args, this`clauses
      ensures Valid()
      ensures forall a: string, m: map<string, string> :: Value(a, m) == Classify(table, a, m)
    {
      var keyed := SortedKeys(set a | a in table && table[a].outcome == "");
      var outcomes := SortedKeys(set a | a in table && table[a].outcome != "" :: table[a].outcome);
      CompileKeyed(keyed);
      CompileStatic(outcomes);
    }
  }

  // ---------------------------------------------------------------- stored events

  /** validateAndMarshal stores the outcome beside the event's own metadata. */
  function StoredMetadata(metadata: map<string, string>, outcome: string): map<string, string> {
    metadata["outcome" := outcome]
  }

  /** The rule for this action does not read the key the store writes, or reads back the same outcome. */
  predicate SurvivesStorage(table: Table, action: string, outcome: string)
    requires action in table
  {
    var rule := table[action];
    rule.outcome != "" || rule.metadataKey != "outcome" ||
    (outcome in rule.metadataOutcomes && rule.metadataOutcomes[outcome] == outcome)
  }

  /**
   The compiled expression, run over what is stored, gives the outcome the event was classified
   with exactly when the rule survives storage; in particular whenever no rule is keyed on "outcome".
   */
  lemma {:induction false} StoredRowsKeepTheirOutcome(table: Table, cs: seq<Clause>, b: Bound,
                                                      action: string, metadata: map<string, string>)
    requires forall i :: 0 <= i < |cs| ==> WellBound(cs[i], b)
    requires forall a: string, m: map<string, string> :: EvalCase(cs, b, a, m) == Classify(table, a, m)
    requires Classify(table, action, metadata).Some?
    ensures
      var outcome := Classify(table, action, metadata).value;
      EvalCase(cs, b, action, StoredMetadata(metadata, outcome)) == Some(outcome) <==>
      SurvivesStorage(table, action, outcome)
  {
  }
}
