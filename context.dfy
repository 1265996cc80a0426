/** The evaluation context (src/context/mod.rs): user-defined functions and variables,
    keyed by identifier, and the three evaluation settings. `Expr` stands for the
    crate's expression tree, which this component stores and hands back but never inspects. */
module ContextRegistry {
  import opened Wrappers
  import opened Settings

  class Context<Expr> {
    /** Functions declared at runtime: identifier to (parameter names, body). */
    var functions: map<string, (seq<string>, Expr)>
    /** Variables declared at runtime: identifier to expression. */
    var variables: map<string, Expr>
    var rounding: Rounding
    var angleUnit: AngleUnit
    var depthLimit: DepthLimit

    /** `Context::default()`: no bindings and the documented default settings. */
    constructor Default()
      ensures functions == map[] && variables == map[]
      ensures rounding == Round(8) && angleUnit == Radian && depthLimit == Limit(49)
    {
      functions := map[];
      variables := map[];
      rounding := DefaultRounding;
      angleUnit := DefaultAngleUnit;
      depthLimit := DefaultDepthLimit;
    }

    /** `Context::new`: no bindings and exactly the given settings. */
    constructor (rounding: Rounding, angleUnit: AngleUnit, depthLimit: DepthLimit)
      ensures functions == map[] && variables == map[]
      ensures this.rounding == rounding && this.angleUnit == angleUnit && this.depthLimit == depthLimit
    {
      functions := map[];
      variables := map[];
      this.rounding := rounding;
      this.angleUnit := angleUnit;
      this.depthLimit := depthLimit;
    }

    /** Binds `identifier` to a function, replacing any earlier binding of it. */
    method AddFunction(identifier: string, params: seq<string>, body: Expr)
      modifies this
      ensures functions == old(functions)[identifier := (params, body)]
      ensures GetFunction(identifier) == Some((params, body))
      ensures forall id :: id != identifier ==> GetFunction(id) == old(GetFunction(id))
      ensures variables == old(variables)
      ensures rounding == old(rounding) && angleUnit == old(angleUnit) && depthLimit == old(depthLimit)
    {
      functions := functions[identifier := (params, body)];
    }

    /** Binds `identifier` to a variable, replacing any earlier binding of it. */
    method AddVariable(identifier: string, expression: Expr)
      modifies this
      ensures variables == old(variables)[identifier := expression]
      ensures GetVar(identifier) == Some(expression)
      ensures forall id :: id != identifier ==> GetVar(id) == old(GetVar(id))
      ensures functions == old(functions)
      ensures rounding == old(rounding) && angleUnit == old(angleUnit) && depthLimit == old(depthLimit)
    {
      variables := variables[identifier := expression];
    }

    /** Adds every function and every variable of `other` to this context, one insertion at
        a time in no particular order; on a shared identifier the binding of `other` wins. */
    method JoinWith(other: Context<Expr>)
      modifies this
      ensures functions == old(functions) + old(other.functions)
      ensures variables == old(variables) + old(other.variables)
      ensures rounding == old(rounding) && angleUnit == old(angleUnit) && depthLimit == old(depthLimit)
      ensures other.functions == old(other.functions) && other.variables == old(other.variables)
    {
      var theirFunctions, theirVariables := other.functions, other.variables;

      var pending := theirFunctions.Keys;
      ghost var done: set<string> := {};
      while pending != {}
        invariant pending + done == theirFunctions.Keys && pending !! done
        invariant functions == old(functions) + Restrict(theirFunctions, done)
        invariant variables == old(variables)
        invariant rounding == old(rounding) && angleUnit == old(angleUnit) && depthLimit == old(depthLimit)
        decreases pending
      {
        var id :| id in pending;
        var (params, body) := theirFunctions[id];
        OverrideStep(old(functions), theirFunctions, done, id);
        AddFunction(id, params, body);
        pending, done := pending - {id}, done + {id};
      }
      RestrictAll(theirFunctions, done);

      pending := theirVariables.Keys;
      done := {};
      while pending != {}
        invariant pending + done == theirVariables.Keys && pending !! done
        invariant variables == old(variables) + Restrict(theirVariables, done)
        invariant functions == old(functions) + theirFunctions
        invariant rounding == old(rounding) && angleUnit == old(angleUnit) && depthLimit == old(depthLimit)
        decreases pending
      {
        var id :| id in pending;
        OverrideStep(old(variables), theirVariables, done, id);
        AddVariable(id, theirVariables[id]);
        pending, done := pending - {id}, done + {id};
      }
      RestrictAll(theirVariables, done);
      if other == this {
        OverrideSelf(theirFunctions);
        OverrideSelf(theirVariables);
      }
    }

    /** The function bound to `identifier`, if any; an unbound identifier is not an error. */
    function GetFunction(identifier: string): (r: Option<(seq<string>, Expr)>)
      reads this
      ensures r.Some? <==> identifier in functions
      ensures r.Some? ==> r.value == functions[identifier]
    {
      if identifier in functions then Some(functions[identifier]) else None
    }

    /** The variable bound to `identifier`, if any; an unbound identifier is not an error. */
    function GetVar(identifier: string): (r: Option<Expr>)
      reads this
      ensures r.Some? <==> identifier in variables
      ensures r.Some? ==> r.value == variables[identifier]
    {
      if identifier in variables then Some(variables[identifier]) else None
    }

    function IsFunction(identifier: string): (b: bool)
      reads this
      ensures b <==> identifier in functions
    {
      GetFunction(identifier).Some?
    }

    function IsVar(identifier: string): (b: bool)
      reads this
      ensures b <==> identifier in variables
    {
      GetVar(identifier).Some?
    }
  }

  /** The bindings of `m` whose identifiers are in `keys`. */
  ghost function Restrict<V>(m: map<string, V>, keys: set<string>): map<string, V>
    requires keys <= m.Keys
  {
    map id | id in keys :: m[id]
  }

  /** One more insertion from `m` extends the part of `m` already laid over `base`. */
  lemma OverrideStep<V>(base: map<string, V>, m: map<string, V>, done: set<string>, id: string)
    requires done <= m.Keys && id in m
    ensures (base + Restrict(m, done))[id := m[id]] == base + Restrict(m, done + {id})
  {
  }

  lemma RestrictAll<V>(m: map<string, V>, keys: set<string>)
    requires keys == m.Keys
    ensures Restrict(m, keys) == m
  {
  }

  lemma OverrideSelf<V>(m: map<string, V>)
    ensures m + m == m
  {
  }

  /** Defining the same function twice keeps only the second definition. */
  method RedefinitionKeepsLast<Expr>(c: Context<Expr>, f: string,
                                     params1: seq<string>, body1: Expr,
                                     params2: seq<string>, body2: Expr)
    modifies c
    ensures c.GetFunction(f) == Some((params2, body2))
    ensures c.functions == old(c.functions)[f := (params2, body2)]
  {
    c.AddFunction(f, params1, body1);
    c.AddFunction(f, params2, body2);
  }

  /** Joining the same context a second time changes nothing more. */
  method JoinTwiceIsJoinOnce<Expr>(c: Context<Expr>, other: Context<Expr>)
    modifies c
    ensures c.functions == old(c.functions) + old(other.functions)
    ensures c.variables == old(c.variables) + old(other.variables)
  {
    c.JoinWith(other);
    c.JoinWith(other);
  }
}
