/**
 * The scope stack of src/runtime/env_utils.ts: an array of scopes, innermost
 * last, each mapping names to values. `lookup` and `assign` search from the
 * innermost scope outwards; `declare` only looks at the innermost scope.
 *
 * The functions `Lookup`, `Assign` and `Declare` say what each operation
 * returns and what the stack is afterwards; the methods work on an array of
 * scopes with the source's downward index loops and are proved to agree.
 */
module EnvUtils {
  import opened Wrappers

  /** One scope: the names declared in it and their values. */
  type Scope<V> = map<string, V>

  datatype EnvError =
      /** `lookup` found the name in no scope. */
    | UndefinedVariable(name: string)
      /** `assign` found the name in no scope. */
    | AssignmentToUndefined(name: string)
      /** `declare` found the name already in the innermost scope. */
    | AlreadyDeclared(name: string)
      /** `declare` on an empty stack, where the innermost scope is `undefined`. */
    | NoScope

  /** The highest index below `n` whose scope holds `name`. */
  function FindBelow<V>(stack: seq<Scope<V>>, name: string, n: nat): (r: Option<nat>)
    requires n <= |stack|
    ensures r.Some? ==> r.value < n && name in stack[r.value]
    decreases n
  {
    if n == 0 then None
    else if name in stack[n - 1] then Some(n - 1)
    else FindBelow(stack, name, n - 1)
  }

  /** The innermost scope holding `name`, if any. */
  function Innermost<V>(stack: seq<Scope<V>>, name: string): Option<nat>
  {
    FindBelow(stack, name, |stack|)
  }

  /** `FindBelow` finds the innermost scope below `n` holding the name, and fails only when none does. */
  lemma {:induction false} FindBelowInnermost<V>(stack: seq<Scope<V>>, name: string, n: nat)
    requires n <= |stack|
    ensures FindBelow(stack, name, n).None? <==> forall j :: 0 <= j < n ==> name !in stack[j]
    ensures FindBelow(stack, name, n).Some? ==>
      forall j :: FindBelow(stack, name, n).value < j < n ==> name !in stack[j]
    decreases n
  {
    if n > 0 && name !in stack[n - 1] {
      FindBelowInnermost(stack, name, n - 1);
    }
  }

  /** The scope index `Innermost` returns is the one scope that holds the name with none above it. */
  lemma InnermostIs<V>(stack: seq<Scope<V>>, name: string, k: nat)
    requires k < |stack| && name in stack[k]
    requires forall j :: k < j < |stack| ==> name !in stack[j]
    ensures Innermost(stack, name) == Some(k)
  {
    FindBelowInnermost(stack, name, |stack|);
  }

  /** `lookup(name, envStack)`. */
  function Lookup<V>(stack: seq<Scope<V>>, name: string): (r: Result<V, EnvError>)
    ensures r.Ok? ==> exists k :: 0 <= k < |stack| && name in stack[k] && stack[k][name] == r.value
    ensures r.Err? ==> r == Err(UndefinedVariable(name))
  {
    match Innermost(stack, name)
    case None => Err(UndefinedVariable(name))
    case Some(i) => Ok(stack[i][name])
  }

  /** `assign(name, value, envStack)`: the stack afterwards. */
  function Assign<V>(stack: seq<Scope<V>>, name: string, value: V): (r: Result<seq<Scope<V>>, EnvError>)
    ensures r.Ok? ==> |r.value| == |stack|
  {
    match Innermost(stack, name)
    case None => Err(AssignmentToUndefined(name))
    case Some(i) => Ok(stack[i := stack[i][name := value]])
  }

  /** `declare(name, value, envStack)`: the stack afterwards. */
  function Declare<V>(stack: seq<Scope<V>>, name: string, value: V): (r: Result<seq<Scope<V>>, EnvError>)
    ensures r.Ok? ==> |r.value| == |stack|
  {
    if |stack| == 0 then Err(NoScope)
    else if name in stack[|stack| - 1] then Err(AlreadyDeclared(name))
    else Ok(stack[|stack| - 1 := stack[|stack| - 1][name := value]])
  }

  // ---------------------------------------------------------------------------
  // The operations on an array of scopes

  /** `lookup`: the loop runs from the innermost scope down to scope 0. */
  method LookupIn<V>(name: string, envStack: array<Scope<V>>) returns (r: Result<V, EnvError>)
    ensures r == Lookup(envStack[..], name)
  {
    ghost var stack := envStack[..];
    var i := envStack.Length - 1;
    while i >= 0
      invariant -1 <= i < envStack.Length
      invariant Innermost(stack, name) == FindBelow(stack, name, i + 1)
      decreases i
    {
      if name in envStack[i] {
        return Ok(envStack[i][name]);
      }
      i := i - 1;
    }
    return Err(UndefinedVariable(name));
  }

  /** `assign`: overwrites the name in the innermost scope holding it, or fails leaving the stack as it was. */
  method AssignIn<V>(name: string, value: V, envStack: array<Scope<V>>) returns (error: Option<EnvError>)
    modifies envStack
    ensures Assign(old(envStack[..]), name, value).Ok? ==>
      error.None? && envStack[..] == Assign(old(envStack[..]), name, value).value
    ensures Assign(old(envStack[..]), name, value).Err? ==>
      error == Some(Assign(old(envStack[..]), name, value).error) && envStack[..] == old(envStack[..])
  {
    ghost var stack := envStack[..];
    var i := envStack.Length - 1;
    while i >= 0
      invariant -1 <= i < envStack.Length
      invariant envStack[..] == stack
      invariant Innermost(stack, name) == FindBelow(stack, name, i + 1)
      decreases i
    {
      if name in envStack[i] {
        envStack[i] := envStack[i][name := value];
        assert envStack[..] == stack[i := stack[i][name := value]];
        return None;
      }
      i := i - 1;
    }
    return Some(AssignmentToUndefined(name));
  }

  /** `declare`: adds the name to the innermost scope, or fails leaving the stack as it was. */
  method DeclareIn<V>(name: string, value: V, envStack: array<Scope<V>>) returns (error: Option<EnvError>)
    modifies envStack
    ensures Declare(old(envStack[..]), name, value).Ok? ==>
      error.None? && envStack[..] == Declare(old(envStack[..]), name, value).value
    ensures Declare(old(envStack[..]), name, value).Err? ==>
      error == Some(Declare(old(envStack[..]), name, value).error) && envStack[..] == old(envStack[..])
  {
    if envStack.Length == 0 {
      return Some(NoScope);
    }
    var current := envStack[envStack.Length - 1];
    if name in current {
      return Some(AlreadyDeclared(name));
    }
    envStack[envStack.Length - 1] := current[name := value];
    return None;
  }

  // ---------------------------------------------------------------------------
  // What the operations promise

  /** Shadowing: `lookup` answers from the innermost scope holding the name, and fails iff no scope holds it. */
  lemma LookupInnermost<V>(stack: seq<Scope<V>>, name: string)
    ensures Lookup(stack, name).Err? <==> forall j :: 0 <= j < |stack| ==> name !in stack[j]
    ensures Lookup(stack, name).Ok? ==>
      exists k :: (0 <= k < |stack| && name in stack[k] && Lookup(stack, name).value == stack[k][name] &&
                   forall j :: k < j < |stack| ==> name !in stack[j])
  {
    FindBelowInnermost(stack, name, |stack|);
  }

  /** A binding in an outer scope is hidden by a binding of the same name further in. */
  lemma Shadowing<V>(stack: seq<Scope<V>>, name: string, outer: nat, inner: nat)
    requires outer < inner < |stack| && name in stack[outer] && name in stack[inner]
    requires forall j :: inner < j < |stack| ==> name !in stack[j]
    ensures Lookup(stack, name) == Ok(stack[inner][name])
  {
    InnermostIs(stack, name, inner);
  }

  /**
   * `assign` succeeds iff `lookup` does. Afterwards the name reads as the new
   * value, every other name reads as before, the stack keeps its height and
   * every scope keeps its names, and only the innermost scope holding the name
   * differs.
   */
  lemma AssignEffect<V>(stack: seq<Scope<V>>, name: string, value: V)
    ensures Assign(stack, name, value).Ok? <==> Lookup(stack, name).Ok?
    ensures Assign(stack, name, value).Err? ==> Assign(stack, name, value).error == AssignmentToUndefined(name)
    ensures Assign(stack, name, value).Ok? ==>
      var after := Assign(stack, name, value).value;
      && Lookup(after, name) == Ok(value)
      && (forall y :: y != name ==> Lookup(after, y) == Lookup(stack, y))
      && (forall j :: 0 <= j < |stack| ==> after[j].Keys == stack[j].Keys)
      && (forall j :: 0 <= j < |stack| && j != Innermost(stack, name).value ==> after[j] == stack[j])
  {
    if Innermost(stack, name).Some? {
      var k := Innermost(stack, name).value;
      var after := Assign(stack, name, value).value;
      FindBelowInnermost(stack, name, |stack|);
      assert forall j :: 0 <= j < |stack| ==> after[j].Keys == stack[j].Keys;
      InnermostIs(after, name, k);
      forall y | y != name
        ensures Lookup(after, y) == Lookup(stack, y)
      {
        SameKeysSameSearch(stack, after, y, |stack|);
        if Innermost(stack, y).Some? {
          assert after[Innermost(stack, y).value][y] == stack[Innermost(stack, y).value][y];
        }
      }
    }
  }

  /** Stacks whose scopes hold the same names are searched alike. */
  lemma {:induction false} SameKeysSameSearch<V>(a: seq<Scope<V>>, b: seq<Scope<V>>, name: string, n: nat)
    requires n <= |a| == |b|
    requires forall j :: 0 <= j < n ==> (name in a[j] <==> name in b[j])
    ensures FindBelow(a, name, n) == FindBelow(b, name, n)
    decreases n
  {
    if n > 0 && name !in a[n - 1] {
      SameKeysSameSearch(a, b, name, n - 1);
    }
  }

  /**
   * `declare` succeeds iff there is a scope and the innermost one lacks the
   * name, even when an outer scope has it. Afterwards the name reads as the
   * new value, every other name reads as before, and only the innermost scope
   * differs.
   */
  lemma DeclareEffect<V>(stack: seq<Scope<V>>, name: string, value: V)
    ensures Declare(stack, name, value).Ok? <==> |stack| > 0 && name !in stack[|stack| - 1]
    ensures Declare(stack, name, value).Ok? ==>
      var after := Declare(stack, name, value).value;
      && Lookup(after, name) == Ok(value)
      && (forall y :: y != name ==> Lookup(after, y) == Lookup(stack, y))
      && after[..|stack| - 1] == stack[..|stack| - 1]
  {
    if Declare(stack, name, value).Ok? {
      var top := |stack| - 1;
      var after := Declare(stack, name, value).value;
      InnermostIs(after, name, top);
      forall y | y != name
        ensures Lookup(after, y) == Lookup(stack, y)
      {
        SameKeysSameSearch(stack, after, y, |stack|);
        if Innermost(stack, y).Some? {
          assert after[Innermost(stack, y).value][y] == stack[Innermost(stack, y).value][y];
        }
      }
    }
  }

  /** Declaring a name a second time in the same scope fails. */
  lemma DeclareTwiceFails<V>(stack: seq<Scope<V>>, name: string, v: V, w: V)
    requires Declare(stack, name, v).Ok?
    ensures Declare(Declare(stack, name, v).value, name, w) == Err(AlreadyDeclared(name))
  {
  }
}
