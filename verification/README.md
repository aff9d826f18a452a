# canny / canna authorization core in Dafny

This is a model of the two pieces of logic at the centre of the `canny` authorization library.

- **`Canna::Result`** (module `Canna`, file `canna_result.dfy`) is a branch-aware decision. `Result.can` and `Result.cannot` build it from a raw outcome, which is either the literal `true` or any other value. Any other value is a denial reason, and that includes `false` and `nil`. The construction block runs when the outcome matches the mode: success under `:can`, denial under `:cannot`. `else` runs its block under the opposite combination. Mode, success and reason never change after construction.
- **`Canny::Authorizer`** (module `Canny`, file `canny_authorizer.dfy`) holds default positional and keyword arguments and an append-only chain of validators. Each query does three things in order:
  - It runs the validators over the defaults, stopping at the first answer that is not `true`.
  - It merges the defaults into the caller's arguments. Positional arguments are concatenated. Keyword arguments are map-merged, and the caller's value wins when both have the same key.
  - It asks the receiver's `authorize_to_<action>` method, then wraps or tests the answer in `can`, `cannot`, `can?`, `cannot?` and `authorize!`.

Ruby values are modelled in module `Ruby` (`ruby.dfy`). `Value` is a closed sum type whose only distinguished shape is `True`. A Ruby block is modelled as a function of its argument list, so `block.call` is `block([])` and `block.call(reason)` is `block([reason])`. A block that may be missing is an `Option<Block>`.

The receiver's dynamic dispatch `receiver.send("authorize_to_#{action}", ...)` is modelled as a function parameter `Policy<R>`, which maps a receiver, an action and the merged arguments to a raw outcome. Validators are function parameters too.

`Authorize` also returns what it did. `validation` says how many validators were called and what the chain answered. `delegated` is `None` when the receiver was never asked, and otherwise holds the exact call the receiver received.

Two points about what the program does:
- `authorize!` passes the caller's unmerged `args` and `kwargs` to `Unauthorized.new` (lib/canny/authorizer.rb:40), and `Canny.AuthorizeBang` carries exactly those.
- spec/canny/result_spec.rb:149-237 exercises `authorized?`, `run` and a resolve-once guard that lib/canna/result.rb does not define. The model follows lib/canna/result.rb, so `else` can be called repeatedly and each call checks its condition again (`Canna.ElseChain`).

## Model

| member | source | states |
|---|---|---|
| Canna.Init | lib/canna/result.rb:17-30 | The mode is kept. Success holds exactly when the outcome equals `true`. The reason is `nil` on success and the outcome itself otherwise. The block runs only when the outcome matches the mode, with no arguments on success and with the reason on a denial. Otherwise `value` is `nil`, and it is also `nil` when no block is given. |
| Canna.MakeCan | lib/canna/result.rb:4-6 | `Result.can` fixes the mode to `:can`. On `true` the block is called with no arguments and its answer is stored in `value`. On any other outcome the block does not run, `value` is `nil`, and `reason` is the outcome. |
| Canna.MakeCannot | lib/canna/result.rb:8-10 | `Result.cannot` fixes the mode to `:cannot`. On `true` the block does not run and `value` is `nil`. On any other outcome the block is called with that outcome as the reason. |
| Canna.Else | lib/canna/result.rb:36-44 | `else` never changes mode, success or reason. When the outcome went against the mode, `value` becomes the block's answer: the block gets the reason under `:can` and no arguments under `:cannot`. Otherwise the result is returned unchanged. |
| Canna.HandlersExclusive | lib/canna/result.rb:22-42 | On every constructed result, the construction block's condition holds exactly when the `else` condition does not. That condition is that the outcome matched the mode. |
| Canna.ExactlyOneBlockRuns | lib/canna/result.rb:17-44 | A result built with block `h` and then given an `else` block `g` holds the answer of exactly one of them. Both blocks get no arguments on `true` and `[outcome]` on a denial. |
| Canna.ElseChain | lib/canna/result.rb:36-44 | Chained `else` calls keep mode, success and reason. When the condition holds, the last block's answer wins. When it does not hold, the whole chain leaves the result unchanged. |
| Canny.New | lib/canny/authorizer.rb:5-9 | The defaults are stored as given. A fresh authorizer's chain calls no validator and passes. |
| Canny.WithValidator | lib/canny/authorizer.rb:13-16 | Exactly one validator is appended, at the end. Earlier validators and the defaults are untouched. |
| Canny.Chain | lib/canny/authorizer.rb:71-77 | The chain answers `true` exactly when every validator does, including the empty chain, and then all of them were called. Otherwise it answers with the first validator that did not return `true`. All earlier validators returned `true`, and no later validator was called. |
| Canny.Validate | lib/canny/authorizer.rb:71-77 | The same first-failure property, stated for the authorizer's own validators. They are called with the default positional and keyword arguments only. |
| Canny.MergeArgs | lib/canny/authorizer.rb:64 | The merged positional arguments are the defaults followed by the caller's arguments. |
| Canny.MergeKwargs | lib/canny/authorizer.rb:65 | The merged keywords have every key of either map. The caller's value wins on a shared key, and default values are kept for the other keys. |
| Canny.Authorize | lib/canny/authorizer.rb:60-67 | If validation fails, the validator's answer is returned and the receiver is not called. If it passes, the receiver is called once with the action and the merged arguments, and its answer is returned verbatim. |
| Canny.Can | lib/canny/authorizer.rb:18-21 | The result is `Result.can` applied to the `authorize` outcome, with the block passed through. A failed validation gives a denied `:can` result whose reason is the validator's and whose block did not run. After a passing validation, success is the policy's answer on the merged arguments. |
| Canny.Cannot | lib/canny/authorizer.rb:23-26 | The result is `Result.cannot` applied to the `authorize` outcome. A failed validation runs the block with the validator's reason. After a passing validation, success is the policy's answer on the merged arguments. |
| Canny.CanQ | lib/canny/authorizer.rb:28-30 | `can?` holds exactly when `authorize` answers `true`. That happens exactly when every validator passes and the policy answers `true` on the merged arguments. |
| Canny.CannotQ | lib/canny/authorizer.rb:32-34 | `cannot?` is the exact negation of `can?`. |
| Canny.AuthorizeBang | lib/canny/authorizer.rb:36-41 | `authorize!` returns normally exactly when `can?` holds. Otherwise it raises `Unauthorized`, carrying the non-`true` outcome, the action, the receiver, and the caller's unmerged arguments and keywords. |
| Canny.EntryPointsAgree | lib/canny/authorizer.rb:18-41 | `can?`, the success of `can`, the success of `cannot`, and a normal return from `authorize!` all agree on every query, whatever the block. |
| Canny.ValidationFailureShortCircuits | lib/canny/authorizer.rb:60-62 | Once validation fails, no policy is called. The outcome is the same for every policy, receiver, action and set of per-call arguments, and `can?` is false. |
| Canny.ChainAppend | lib/canny/authorizer.rb:71-77 | Suppose one validator is appended to a chain. If the chain already failed, its answer and call count are unchanged. Otherwise the new validator is called last, and its answer is the chain's. |
| Canny.WithValidatorTightens | lib/canny/authorizer.rb:11-16 | Registering a validator can only turn passes into failures. An existing denial keeps its reason, and the new validator is not called for it. |
| Canny.MergeScenario | spec/canny/authorizer_spec.rb:26-40 | Take defaults `:foo` and `bar: :baz`, a passing validator, and the call `(1, 2, 3, d: 4)`. The policy is then asked with `(:foo, 1, 2, 3, bar: :baz, d: 4)`. |
| Canny.FailingValidatorScenario | spec/canny/authorizer_spec.rb:42-56 | With default `:foobar` the validator denies with `"invalid argument"`, and the policy is never asked. |

## Left out

- Ruby versions before 2.7 (lib/canny/authorizer.rb:43-58): that branch handles a quirk of empty keyword hashes and has no other meaning. Only the single 2.7+ behaviour is modelled.
- The `"authorize_to_#{action}"` method-name construction, and the `NoMethodError` raised when a receiver lacks that method. The receiver is an abstract `Policy` function, which is total.
- The `Unauthorized` class is not part of this model. `authorize!` returns a `Raised` value that carries the fields the constructor is given.
- The resolve-once guard, `run` and `authorized?`. They appear only in the tests (spec/canny/result_spec.rb:149-237), not in lib/canna/result.rb.
- Canna.Else: the block is always given. Calling `else` without a block, when its condition holds, would raise `NoMethodError` on `nil` in Ruby, and that path is not modelled.
- Side effects of blocks, validators and policies: they are pure functions here. "The block ran" is visible through `value`, the validator calls through `Validation.called`, and the policy call through `Query.delegated`.
- Canny.MergeKwargs: the model states which key maps to which value but not the order of the keys. Ruby hashes keep insertion order; Dafny maps have none.
- `private :new` (lib/canna/result.rb:12): visibility has no behaviour to model. `Canna.Init` is reachable, and it is only ever called with the two modes.
- In-place mutation and aliasing: `with_validator` (lib/canny/authorizer.rb:14-15) and `else` (lib/canna/result.rb:39-43) change the object in place and return `self`, so every reference to it sees the change, even when the return value is discarded. `Canny.WithValidator` and `Canna.Else` instead return the updated value and leave their argument as it was; a caller that keeps using the old reference is not modelled.
- Receiver identity in `Unauthorized`: the receiver is any value of a type parameter `R`. It is carried along and never inspected.
