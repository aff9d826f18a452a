/**
 `Canny::Authorizer`: a context-carrying dispatcher.

 An authorizer holds default positional and keyword arguments and an
 append-only chain of validators over those defaults. A query runs the
 chain, and only when every validator answers `true` does it merge the
 defaults into the caller's arguments and ask the receiver's policy method.
 The receiver's `authorize_to_<action>` methods are modelled as one function
 `Policy` from receiver, action and merged arguments to a raw outcome.
 */
module Canny {
  import opened Ruby
  import Canna

  /** A validator block: called with the default arguments only. */
  type Validator = (Args, Kwargs) -> Value

  /** `receiver.send("authorize_to_#{action}", *args, **kwargs)`. */
  type Policy<-R> = (R, Symbol, Args, Kwargs) -> Value

  datatype Authorizer = Authorizer(defaultArgs: Args, defaultKwargs: Kwargs, validators: seq<Validator>)

  /** `Authorizer.new(*default_args, **default_kwargs)`. */
  function New(defaultArgs: Args, defaultKwargs: Kwargs): (a: Authorizer)
    ensures a.defaultArgs == defaultArgs && a.defaultKwargs == defaultKwargs
    ensures Validate(a).result == True && Validate(a).called == 0
  {
    Authorizer(defaultArgs, defaultKwargs, [])
  }

  /** `with_validator(&block)`: returns the authorizer with one validator
      appended. The source appends in place and returns `self`. */
  function WithValidator(a: Authorizer, v: Validator): (a': Authorizer)
    ensures a'.defaultArgs == a.defaultArgs && a'.defaultKwargs == a.defaultKwargs
    ensures |a'.validators| == |a.validators| + 1
    ensures a'.validators[..|a.validators|] == a.validators
    ensures a'.validators[|a.validators|] == v
  {
    a.(validators := a.validators + [v])
  }

  /** What running the chain produced: the answer, and how many validators
      were called before the chain stopped. */
  datatype Validation = Validation(result: Value, called: nat)

  /** The first `n` validators of the chain all answer `true`. */
  ghost predicate PassUpTo(vs: seq<Validator>, args: Args, kwargs: Kwargs, n: int) {
    forall i :: 0 <= i < n && i < |vs| ==> vs[i](args, kwargs) == True
  }

  /** The `@validators.each` loop with its early return. */
  function Chain(vs: seq<Validator>, args: Args, kwargs: Kwargs): (v: Validation)
    ensures v.called <= |vs|
    ensures v.result == True <==> PassUpTo(vs, args, kwargs, |vs|)
    ensures v.result == True ==> v.called == |vs|
    ensures v.result != True ==>
              && 0 < v.called
              && vs[v.called - 1](args, kwargs) == v.result
              && PassUpTo(vs, args, kwargs, v.called - 1)
  {
    if |vs| == 0 then Validation(True, 0)
    else
      var r := vs[0](args, kwargs);
      if r != True then Validation(r, 1)
      else
        var rest := Chain(vs[1..], args, kwargs);
        Validation(rest.result, rest.called + 1)
  }

  /** private `validate`: the chain over the default arguments. Its result
      depends on nothing a caller passes per query. */
  function Validate(a: Authorizer): (v: Validation)
    ensures v.called <= |a.validators|
    ensures v.result == True <==> PassUpTo(a.validators, a.defaultArgs, a.defaultKwargs, |a.validators|)
    ensures v.result == True ==> v.called == |a.validators|
    ensures v.result != True ==>
              && 0 < v.called
              && a.validators[v.called - 1](a.defaultArgs, a.defaultKwargs) == v.result
              && PassUpTo(a.validators, a.defaultArgs, a.defaultKwargs, v.called - 1)
  {
    Chain(a.validators, a.defaultArgs, a.defaultKwargs)
  }

  /** `default_kwargs.merge(kwargs)`: every key of either map, the caller's
      value winning where both have one. */
  function MergeKwargs(defaults: Kwargs, kwargs: Kwargs): (m: Kwargs)
    ensures m.Keys == defaults.Keys + kwargs.Keys
    ensures forall k :: k in kwargs ==> m[k] == kwargs[k]
    ensures forall k :: k in defaults && k !in kwargs ==> m[k] == defaults[k]
  {
    defaults + kwargs
  }

  /** `default_args + args`: the defaults first, then the caller's arguments. */
  function MergeArgs(defaults: Args, args: Args): (m: Args)
    ensures |m| == |defaults| + |args|
    ensures m[..|defaults|] == defaults
    ensures m[|defaults|..] == args
  {
    defaults + args
  }

  /** A delegated policy call, as the receiver saw it. */
  datatype Call<R> = Call(receiver: R, action: Symbol, args: Args, kwargs: Kwargs)

  /** What `authorize` returned (`outcome`), together with the record of
      the validation and of the policy call it made, if any. */
  datatype Query<R> = Query(outcome: Value, validation: Validation, delegated: Option<Call<R>>)

  /** `authorize(action, receiver, *args, **kwargs)` (the Ruby >= 2.7 branch). */
  function Authorize<R>(a: Authorizer, policy: Policy<R>, action: Symbol, receiver: R,
                        args: Args, kwargs: Kwargs): (q: Query<R>)
    ensures q.validation == Validate(a)
    ensures q.validation.result != True ==> q.outcome == q.validation.result && q.delegated.None?
    ensures q.validation.result == True ==>
              && q.delegated.Some?
              && q.delegated.value.receiver == receiver
              && q.delegated.value.action == action
              && q.delegated.value.args == MergeArgs(a.defaultArgs, args)
              && q.delegated.value.kwargs == MergeKwargs(a.defaultKwargs, kwargs)
              && q.outcome == policy(receiver, action, q.delegated.value.args, q.delegated.value.kwargs)
  {
    var validation := Validate(a);
    if validation.result != True then Query(validation.result, validation, None)
    else
      var call := Call(receiver, action, MergeArgs(a.defaultArgs, args), MergeKwargs(a.defaultKwargs, kwargs));
      Query(policy(receiver, action, call.args, call.kwargs), validation, Some(call))
  }

  /** `can(action, receiver, *args, **kwargs, &block)`. */
  function Can<R>(a: Authorizer, policy: Policy<R>, action: Symbol, receiver: R,
                  args: Args, kwargs: Kwargs, block: Option<Block>): (r: Canna.Result)
    ensures r == Canna.MakeCan(Authorize(a, policy, action, receiver, args, kwargs).outcome, block)
    ensures r.mode == Canna.Can
    ensures Validate(a).result != True ==> !r.success && r.reason == Validate(a).result && r.value == Nil
    ensures Validate(a).result == True ==>
              (r.success <==> policy(receiver, action, MergeArgs(a.defaultArgs, args),
                                     MergeKwargs(a.defaultKwargs, kwargs)) == True)
  {
    Canna.MakeCan(Authorize(a, policy, action, receiver, args, kwargs).outcome, block)
  }

  /** `cannot(action, receiver, *args, **kwargs, &block)`. */
  function Cannot<R>(a: Authorizer, policy: Policy<R>, action: Symbol, receiver: R,
                     args: Args, kwargs: Kwargs, block: Option<Block>): (r: Canna.Result)
    ensures r == Canna.MakeCannot(Authorize(a, policy, action, receiver, args, kwargs).outcome, block)
    ensures r.mode == Canna.Cannot
    ensures Validate(a).result != True ==>
              && !r.success
              && r.reason == Validate(a).result
              && r.value == (if block.Some? then block.value([Validate(a).result]) else Nil)
    ensures Validate(a).result == True ==>
              (r.success <==> policy(receiver, action, MergeArgs(a.defaultArgs, args),
                                     MergeKwargs(a.defaultKwargs, kwargs)) == True)
  {
    Canna.MakeCannot(Authorize(a, policy, action, receiver, args, kwargs).outcome, block)
  }

  /** `can?(action, receiver, *args, **kwargs)`. */
  function CanQ<R>(a: Authorizer, policy: Policy<R>, action: Symbol, receiver: R,
                   args: Args, kwargs: Kwargs): (b: bool)
    ensures b <==> Authorize(a, policy, action, receiver, args, kwargs).outcome == True
    ensures b <==> PassUpTo(a.validators, a.defaultArgs, a.defaultKwargs, |a.validators|)
                   && policy(receiver, action, MergeArgs(a.defaultArgs, args),
                             MergeKwargs(a.defaultKwargs, kwargs)) == True
  {
    Authorize(a, policy, action, receiver, args, kwargs).outcome == True
  }

  /** `cannot?(action, receiver, *args, **kwargs)`. */
  function CannotQ<R>(a: Authorizer, policy: Policy<R>, action: Symbol, receiver: R,
                      args: Args, kwargs: Kwargs): (b: bool)
    ensures b <==> Authorize(a, policy, action, receiver, args, kwargs).outcome != True
    ensures b != CanQ(a, policy, action, receiver, args, kwargs)
  {
    !CanQ(a, policy, action, receiver, args, kwargs)
  }

  /** How `authorize!` ends: a normal return, or the `Unauthorized` error it
      raises, carrying the reason and the call exactly as the caller made it. */
  datatype Raised<R> =
    | Returned
    | Unauthorized(reason: Value, action: Symbol, receiver: R, args: Args, kwargs: Kwargs)

  /** `authorize!(action, receiver, *args, **kwargs)`. */
  function AuthorizeBang<R>(a: Authorizer, policy: Policy<R>, action: Symbol, receiver: R,
                            args: Args, kwargs: Kwargs): (e: Raised<R>)
    ensures e.Returned? <==> CanQ(a, policy, action, receiver, args, kwargs)
    ensures e.Unauthorized? ==>
              && e.reason == Authorize(a, policy, action, receiver, args, kwargs).outcome
              && e.reason != True
              && e.action == action && e.receiver == receiver
              && e.args == args && e.kwargs == kwargs
  {
    var outcome := Authorize(a, policy, action, receiver, args, kwargs).outcome;
    if outcome == True then Returned
    else Unauthorized(outcome, action, receiver, args, kwargs)
  }

  /** The predicate, the decision and the strict entry point agree on every
      query: `can?` holds exactly when `can` builds a successful result,
      `cannot` builds one, and `authorize!` returns. */
  lemma EntryPointsAgree<R>(a: Authorizer, policy: Policy<R>, action: Symbol, receiver: R,
                            args: Args, kwargs: Kwargs, block: Option<Block>)
    ensures CanQ(a, policy, action, receiver, args, kwargs)
            <==> Can(a, policy, action, receiver, args, kwargs, block).success
    ensures CanQ(a, policy, action, receiver, args, kwargs)
            <==> Cannot(a, policy, action, receiver, args, kwargs, block).success
    ensures CanQ(a, policy, action, receiver, args, kwargs)
            <==> AuthorizeBang(a, policy, action, receiver, args, kwargs).Returned?
  {
  }

  /** A failing chain decides every query alone: the policy is never
      called, and the outcome is the same whatever the receiver, the policy,
      the action and the per-call arguments are. */
  lemma ValidationFailureShortCircuits<R>(a: Authorizer, p1: Policy<R>, p2: Policy<R>,
                                          act1: Symbol, act2: Symbol, rec1: R, rec2: R,
                                          args1: Args, args2: Args, kw1: Kwargs, kw2: Kwargs)
    requires Validate(a).result != True
    ensures Authorize(a, p1, act1, rec1, args1, kw1).delegated.None?
    ensures Authorize(a, p1, act1, rec1, args1, kw1).outcome
            == Authorize(a, p2, act2, rec2, args2, kw2).outcome
    ensures !CanQ(a, p1, act1, rec1, args1, kw1)
  {
  }

  /** Appending a validator to a chain: if the chain already fails, the new
      validator is never called and the answer is unchanged; otherwise the
      new validator is called last and its answer is the chain's. */
  lemma {:induction false} ChainAppend(vs: seq<Validator>, v: Validator, args: Args, kwargs: Kwargs)
    ensures Chain(vs, args, kwargs).result != True ==> Chain(vs + [v], args, kwargs) == Chain(vs, args, kwargs)
    ensures Chain(vs, args, kwargs).result == True ==>
              Chain(vs + [v], args, kwargs) == Validation(v(args, kwargs), |vs| + 1)
  {
    if |vs| == 0 {
      assert vs + [v] == [v];
    } else {
      assert (vs + [v])[1..] == vs[1..] + [v];
      ChainAppend(vs[1..], v, args, kwargs);
    }
  }

  /** `with_validator` can only tighten an authorizer: whatever the new
      validator answers, a query the old chain denied stays denied with the
      same reason, and a query the new chain allows was allowed before. */
  lemma WithValidatorTightens(a: Authorizer, v: Validator)
    ensures Validate(a).result != True ==> Validate(WithValidator(a, v)) == Validate(a)
    ensures Validate(WithValidator(a, v)).result == True ==> Validate(a).result == True
    ensures Validate(a).result == True ==>
              Validate(WithValidator(a, v)).result == v(a.defaultArgs, a.defaultKwargs)
  {
    ChainAppend(a.validators, v, a.defaultArgs, a.defaultKwargs);
  }

  /** The validator of the tests: the first default argument must be `:foo`
      and the `bar:` default must be `:baz`. */
  function FooBarValidator(): Validator {
    (args: Args, kwargs: Kwargs) =>
      if |args| > 0 && args[0] == Sym("foo") && "bar" in kwargs && kwargs["bar"] == Sym("baz") then True
      else Str("invalid argument")
  }

  /** With defaults `:foo` and `bar: :baz` the validator passes, and
      `can(:show, receiver, 1, 2, 3, d: 4)` asks the policy with
      `(:foo, 1, 2, 3, bar: :baz, d: 4)`. */
  lemma MergeScenario<R>(policy: Policy<R>, receiver: R)
    ensures var a := WithValidator(New([Sym("foo")], map["bar" := Sym("baz")]), FooBarValidator());
            var q := Authorize(a, policy, "show", receiver, [Int(1), Int(2), Int(3)], map["d" := Int(4)]);
            && q.delegated.Some?
            && q.delegated.value.args == [Sym("foo"), Int(1), Int(2), Int(3)]
            && q.delegated.value.kwargs == map["bar" := Sym("baz"), "d" := Int(4)]
  {
    var a := WithValidator(New([Sym("foo")], map["bar" := Sym("baz")]), FooBarValidator());
    assert a.validators == [FooBarValidator()];
    assert FooBarValidator()(a.defaultArgs, a.defaultKwargs) == True;
    assert Validate(a).result == True;
    var m := MergeKwargs(a.defaultKwargs, map["d" := Int(4)]);
    assert m.Keys == {"bar", "d"};
    assert m == map["bar" := Sym("baz"), "d" := Int(4)];
  }

  /** With default `:foobar` the validator's reason is the outcome of
      every query and the policy is never asked. */
  lemma FailingValidatorScenario<R>(policy: Policy<R>, receiver: R)
    ensures var a := WithValidator(New([Sym("foobar")], map["bar" := Sym("baz")]), FooBarValidator());
            var q := Authorize(a, policy, "show", receiver, [Int(1), Int(2), Int(3)], map["d" := Int(4)]);
            && q.delegated.None?
            && q.outcome == Str("invalid argument")
  {
    var a := WithValidator(New([Sym("foobar")], map["bar" := Sym("baz")]), FooBarValidator());
    assert a.validators == [FooBarValidator()];
    assert FooBarValidator()(a.defaultArgs, a.defaultKwargs) == Str("invalid argument");
    assert Validate(a) == Validation(Str("invalid argument"), 1);
  }
}
