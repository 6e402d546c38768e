# Return type inference in Laser, modelled in Dafny

Laser is a static analyser for Ruby. For a method of the analysed program and the
types of a receiver and arguments, it infers the type the method can return. It does
this on the method's control-flow graph in SSA form, with a table of overloads for
the built-in classes. The behaviour modelled here is the behaviour that the
return-type-inference specification of the repository pins down, scenario by
scenario:

- overload resolution for `*`, `+`, `-`, `>` and a few String, Symbol, Integer and
  Array methods, over union operands. A call that no operand combination matches
  reports `NoMatchingTypeSignature` on its line and yields the empty type;
- the flow merge: an if/else join gives each variable the union of its incoming
  versions. A variable assigned on one branch only merges with `NilClass`. A
  reassignment replaces the type instead of widening it;
- tuple types for rest arguments and array literals: literal and negative indexing,
  inclusive range slicing, destructuring, folding of `size`/`length`, `to_a`/`to_ary`,
  concatenation and replication by a literal count;
- the process-wide field store. Globals and instance variables (keyed by the class
  that declares the accessing method) accumulate every type written to them, starting
  from `NilClass`. This is a class with map fields that the query updates in place;
- calls between methods of the analysed program, `Foo.new`, `super` with and
  without arguments (looked up from the declaring class), and the `to_s` contract
  check (`ImproperOverloadTypeError`).

Modules:

| file | module | contents |
|---|---|---|
| types.dfy | Types | the type lattice: a type is a set of atoms (primitive classes, class types, tuples) |
| tuples.dfy | Tuples | tuple algebra with Ruby's Array index semantics |
| overloads.dfy | Overloads | the signature table, member-wise resolution, literal folding |
| flow.dfy | Flow | SSA environments and the merge at joins |
| fields.dfy | Fields | the field store, as values and as the `FieldStore` class |
| engine.dfy | Engine | the inference engine: a walk over a small syntax tree of method bodies |
| query.dfy | Query | `return_type_for_types` against the field store |
| scenarios.dfy, branches.dfy, calls.dfy, tuple_programs.dfy | Scenarios, Branches, Calls, TuplePrograms | the analysed programs, with what the engine infers for them |

The engine is a pure function `InferReturn` from a program, the field store at the
start of the query, a method, and the receiver and argument types. It returns the
inferred type, the field writes performed and the diagnostics. `Query.ReturnTypeForTypes`
then performs those writes on a `FieldStore` object, so later queries see them.

Two rules are fixed by the expected results in
`spec/analysis_specs/control_flow_specs/return_type_inference_spec.rb`:

- A slice `t[lo..hi]` is nil only when its start, counted from the end when
  negative, falls outside `0..|t|`. The end is clamped to the last element. So
  `args[-3..4]` on three arguments is all three, and `args[-4..4]` is nil
  (lines 263-268).
- The value of an assignment to a field is the assigned type, not the field's
  accumulated type. `set_foo` returns String and then Fixnum while `@foo`
  accumulates both (lines 203-212).

## Model

| member | source | states |
|---|---|---|
| Types.Join | spec/analysis_specs/control_flow_specs/return_type_inference_spec.rb:171-172 | the union of two types contains both and lies below every common upper bound |
| Tuples.At | spec/analysis_specs/control_flow_specs/return_type_inference_spec.rb:223-238 | `t[i]` is element i, element `|t|+i` for a negative i, and NilClass outside the tuple |
| Tuples.SliceRange | spec/analysis_specs/control_flow_specs/return_type_inference_spec.rb:240-269 | the element types a range selects: when there is a slice, it holds at most `|t|` types and each is one of t's elements |
| Tuples.Slice | spec/analysis_specs/control_flow_specs/return_type_inference_spec.rb:240-269 | `t[lo..hi]` is NilClass exactly when the range selects no slice, and otherwise the tuple of the selected types |
| Tuples.AtNegative | spec/analysis_specs/control_flow_specs/return_type_inference_spec.rb:302-331 | indexing with `i - |t|` selects the same element as `i` |
| Tuples.AtInRange | spec/analysis_specs/control_flow_specs/return_type_inference_spec.rb:223-238 | an index selects an element exactly when it lies in `-|t|..|t|-1`, and is nil otherwise |
| Tuples.SliceContents | spec/analysis_specs/control_flow_specs/return_type_inference_spec.rb:240-269 | a non-nil slice starts at the resolved start, has exactly as many elements as lie from there to the resolved end clamped to the last element (none when that end comes first), and holds them in place |
| Tuples.SliceNil | spec/analysis_specs/control_flow_specs/return_type_inference_spec.rb:266-268 | a slice is nil exactly when its resolved start lies before 0 or past the end |
| Tuples.SliceWhole | spec/analysis_specs/control_flow_specs/return_type_inference_spec.rb:263-265 | a range from the first element to the last or beyond selects the whole tuple |
| Tuples.SliceSingle | spec/analysis_specs/control_flow_specs/return_type_inference_spec.rb:240-269 | `t[i..i]` is the one-element tuple of `t[i]` |
| Tuples.ConcatAt | spec/analysis_specs/control_flow_specs/return_type_inference_spec.rb:403-415 | element i of `a + b` is element i of a, or element `i-|a|` of b |
| Tuples.ConcatAtNegative | spec/analysis_specs/control_flow_specs/return_type_inference_spec.rb:403-415 | negative indexes into `a + b` that reach only into b select from b |
| Tuples.ReplicateLength | spec/analysis_specs/control_flow_specs/return_type_inference_spec.rb:417-430 | `t * n` has `n·|t|` elements |
| Tuples.ReplicateAt | spec/analysis_specs/control_flow_specs/return_type_inference_spec.rb:417-430 | element `q·|t| + r` of `t * n` is element r of t |
| Tuples.ReplicateAdd | spec/analysis_specs/control_flow_specs/return_type_inference_spec.rb:417-430 | `t * (m+n)` is `t * m` followed by `t * n` |
| Tuples.ReplicateOnce | spec/analysis_specs/control_flow_specs/return_type_inference_spec.rb:417-430 | `t * 1` is t |
| Tuples.ReplicateMembers | spec/analysis_specs/control_flow_specs/return_type_inference_spec.rb:417-430 | `t * n` holds only element types of t, and for n > 0 every one of them |
| Tuples.DestructureMembers | spec/analysis_specs/control_flow_specs/return_type_inference_spec.rb:271-300 | destructuring a union binds each target to the union of what each member binds there, and nothing else |
| Tuples.DestructureTuple | spec/analysis_specs/control_flow_specs/return_type_inference_spec.rb:271-300 | the i-th target of `a, b, c = t` gets `t[i]`, or NilClass past the end |
| Overloads.Resolve | spec/analysis_specs/control_flow_specs/return_type_inference_spec.rb:21-38 | a call on an EMPTY operand (the value of a call already reported) is EMPTY with no second report; a call with two or more arguments matches no signature |
| Overloads.ResolveMembers | spec/analysis_specs/control_flow_specs/return_type_inference_spec.rb:21-38 | for non-empty operands, a call is unresolved exactly when no (receiver member, argument member) combination has a signature; otherwise its type holds the output of every matching combination and nothing else |
| Overloads.ResolveSingle1 | spec/analysis_specs/control_flow_specs/return_type_inference_spec.rb:4-19 | with one-member operands, a call resolves to its table entry, and is unresolved when the table has none |
| Overloads.ResolveSingle0 | spec/analysis_specs/control_flow_specs/return_type_inference_spec.rb:40-58 | the same for calls without arguments |
| Overloads.ResolveJoinReceiver1 | spec/analysis_specs/control_flow_specs/return_type_inference_spec.rb:81-98 | a union receiver resolves to the union of its parts' results, and is unresolved only when every part is |
| Overloads.ResolveJoinArgument1 | spec/analysis_specs/control_flow_specs/return_type_inference_spec.rb:21-38 | a union argument resolves the same way, member by member |
| Overloads.ResolveJoinReceiver0 | spec/analysis_specs/control_flow_specs/return_type_inference_spec.rb:40-58 | a union receiver of an argument-less call resolves member by member |
| Overloads.FixnumTimesFloat | spec/analysis_specs/control_flow_specs/return_type_inference_spec.rb:13-15 | Fixnum * Float is Float |
| Overloads.FixnumTimesFixnum | spec/analysis_specs/control_flow_specs/return_type_inference_spec.rb:16-18 | Fixnum * Fixnum is Fixnum or Bignum |
| Overloads.StringTimesFixnum | spec/analysis_specs/control_flow_specs/return_type_inference_spec.rb:90-94 | String * Fixnum is String |
| Overloads.FloatTimesFixnum | spec/analysis_specs/control_flow_specs/return_type_inference_spec.rb:110-111 | Float * Fixnum is Float |
| Overloads.FixnumTimesText | spec/analysis_specs/control_flow_specs/return_type_inference_spec.rb:30-37 | Fixnum * String and Fixnum * Symbol match no signature |
| Overloads.UnionTimesFixnum | spec/analysis_specs/control_flow_specs/return_type_inference_spec.rb:90-94 | {String, Fixnum} * Fixnum is {String, Fixnum, Bignum} |
| Overloads.FixnumTimesUnionUnresolved | spec/analysis_specs/control_flow_specs/return_type_inference_spec.rb:25-37 | Fixnum * {String, Symbol} matches no signature at all |
| Overloads.StringMethods | spec/analysis_specs/control_flow_specs/return_type_inference_spec.rb:44-48 | String#to_sym is a Symbol and String#size an Integer (also used on line 25); String#strip! is a String or nil (line 141) |
| Overloads.SymbolSize | spec/analysis_specs/control_flow_specs/return_type_inference_spec.rb:48 | Symbol#size is an Integer |
| Overloads.IntegerMethods | spec/analysis_specs/control_flow_specs/return_type_inference_spec.rb:50-52 | Integer#zero? is a Boolean, and Integer#to_s (line 389) a String |
| Overloads.IntegerGreater | spec/analysis_specs/control_flow_specs/return_type_inference_spec.rb:25 | Integer > Fixnum is a Boolean, and so is Fixnum > Fixnum (line 85) |
| Overloads.TupleIndex | spec/analysis_specs/control_flow_specs/return_type_inference_spec.rb:223-238 | a tuple indexed by a known integer is that element; by an unknown Fixnum, any element or nil |
| Overloads.TupleSlice | spec/analysis_specs/control_flow_specs/return_type_inference_spec.rb:240-269 | a tuple indexed by a range with known bounds is the slice |
| Overloads.TupleSize | spec/analysis_specs/control_flow_specs/return_type_inference_spec.rb:302-313 | a tuple's `size` and `length` are Fixnums whose known value is its length |
| Overloads.FixnumMinus | spec/analysis_specs/control_flow_specs/return_type_inference_spec.rb:306 | Fixnum - Fixnum is an Integer, and two known values subtract |
| Overloads.TupleToA | spec/analysis_specs/control_flow_specs/return_type_inference_spec.rb:333-344 | `to_a` and `to_ary` on a tuple are the tuple itself |
| Overloads.TupleConcat | spec/analysis_specs/control_flow_specs/return_type_inference_spec.rb:403-415 | tuple + tuple is the tuple of the concatenated elements |
| Overloads.TupleReplicate | spec/analysis_specs/control_flow_specs/return_type_inference_spec.rb:417-430 | tuple * k repeats the elements k times for a known k >= 0; a negative or unknown count matches nothing |
| Flow.Bind | spec/analysis_specs/control_flow_specs/return_type_inference_spec.rb:109-111 | a new version of a variable has exactly the assigned type, and every other variable keeps its own |
| Flow.Merge | spec/analysis_specs/control_flow_specs/return_type_inference_spec.rb:81-98 | the merged environment binds exactly the variables bound on either incoming edge |
| Flow.MergeLookup | spec/analysis_specs/control_flow_specs/return_type_inference_spec.rb:81-98 | after a join each variable has the union of its incoming versions |
| Flow.MergeOneSided | spec/analysis_specs/control_flow_specs/return_type_inference_spec.rb:120-135 | a variable assigned on one side only merges with NilClass |
| Flow.MergeCovers | spec/analysis_specs/control_flow_specs/return_type_inference_spec.rb:81-98 | the merged type contains both incoming types and nothing else |
| Flow.MergeCommutes | spec/analysis_specs/control_flow_specs/return_type_inference_spec.rb:81-98 | the merge does not depend on branch order |
| Flow.MergeSame | spec/analysis_specs/control_flow_specs/return_type_inference_spec.rb:81-98 | merging an environment with itself changes nothing |
| Fields.WriteGrows | spec/analysis_specs/control_flow_specs/return_type_inference_spec.rb:152-180 | a write keeps every entry containing NilClass, and no read gets narrower |
| Fields.ReadGlobalAfterWrites | spec/analysis_specs/control_flow_specs/return_type_inference_spec.rb:171-176 | a global reads as its earlier type joined with every type written to it since, and with nothing written elsewhere |
| Fields.ReadIvarAfterWrites | spec/analysis_specs/control_flow_specs/return_type_inference_spec.rb:201-221 | the same for an instance variable, keyed by (class, field) |
| Fields.FreshReads | spec/analysis_specs/control_flow_specs/return_type_inference_spec.rb:167-170 | in a fresh store, a field reads as NilClass joined with everything written to it |
| Fields.ApplyWritesAppend | spec/analysis_specs/control_flow_specs/return_type_inference_spec.rb:173-179 | performing writes in two batches is performing them all in order |
| Fields.FieldStore.constructor | spec/analysis_specs/control_flow_specs/return_type_inference_spec.rb:167-170 | a new store is empty, so every field reads as nil |
| Fields.FieldStore.LookupGlobal | spec/analysis_specs/control_flow_specs/return_type_inference_spec.rb:176 | returns the accumulated type of a global, which contains NilClass |
| Fields.FieldStore.LookupIvar | spec/analysis_specs/control_flow_specs/return_type_inference_spec.rb:201-221 | returns the accumulated type of one class's instance variable |
| Fields.FieldStore.Perform | spec/analysis_specs/control_flow_specs/return_type_inference_spec.rb:152-180 | joins one write into its entry in place, keeping the store valid |
| Fields.FieldStore.PerformAll | spec/analysis_specs/control_flow_specs/return_type_inference_spec.rb:152-180 | performs a run's writes in order; the new state is the old one with all of them applied |
| Engine.Unresolved | spec/analysis_specs/control_flow_specs/return_type_inference_spec.rb:37 | the unresolved-call diagnostic is a NoMatchingTypeSignature on the call's line and names the method |
| Engine.ContractCheck | spec/analysis_specs/control_flow_specs/return_type_inference_spec.rb:137-150 | a report is made exactly when a method with a contract (`to_s` → String) may return outside it; the report is an ImproperOverloadTypeError on the method's line naming it |
| Engine.InferReturn | spec/analysis_specs/control_flow_specs/return_type_inference_spec.rb:152-180 | inference only adds field writes and diagnostics; it never takes one back |
| Engine.CallBuiltin | spec/analysis_specs/control_flow_specs/return_type_inference_spec.rb:21-38 | a built-in call has the table's type and changes nothing, or is EMPTY with one NoMatchingTypeSignature appended |
| Engine.BindParamsNamed | spec/analysis_specs/control_flow_specs/return_type_inference_spec.rb:4-19 | parameter i is bound to argument i, or NilClass when the call passes fewer |
| Engine.BindParamsRest | spec/analysis_specs/control_flow_specs/return_type_inference_spec.rb:223-238 | a rest parameter is the tuple of the arguments past the named ones |
| Engine.BindTargetsAt | spec/analysis_specs/control_flow_specs/return_type_inference_spec.rb:271-300 | destructuring binds target i to position i of the right-hand side |
| Engine.Forwarded | spec/analysis_specs/control_flow_specs/return_type_inference_spec.rb:387-388 | a bare `super` forwards the current versions of the parameters, in order |
| Engine.EvalNew | spec/analysis_specs/control_flow_specs/return_type_inference_spec.rb:60-79 | `Cls.new(args)` is an instance of exactly Cls, invariant, whatever the arguments |
| Engine.FindMethodSound | spec/analysis_specs/control_flow_specs/return_type_inference_spec.rb:374-401 | method lookup returns only a definition that the named class really declares |
| Engine.LookupOwnFirst | spec/analysis_specs/control_flow_specs/return_type_inference_spec.rb:374-401 | a class's own definition shadows every inherited one |
| Engine.LookupInherited | spec/analysis_specs/control_flow_specs/return_type_inference_spec.rb:374-401 | a class that does not declare a method inherits its parent's |
| Engine.SuperFromDeclaringClass | spec/analysis_specs/control_flow_specs/return_type_inference_spec.rb:381-390 | `super` resolves from the superclass of the class declaring the running method, whatever the receiver |
| Engine.CallSuperParent | spec/analysis_specs/control_flow_specs/return_type_inference_spec.rb:381-390 | `super` infers the superclass's method with the caller's receiver type and the passed argument types, and its writes and reports become the caller's |
| Engine.ReassignmentReplaces | spec/analysis_specs/control_flow_specs/return_type_inference_spec.rb:100-118 | after `x = e`, x has e's type alone and every other variable is unchanged |
| Engine.IfMerges | spec/analysis_specs/control_flow_specs/return_type_inference_spec.rb:81-98 | after an if/else whose branches both reach the end, each variable is the union of its branch versions |
| Engine.IfWithoutElse | spec/analysis_specs/control_flow_specs/return_type_inference_spec.rb:120-135 | after an if without else, a variable merges its then-branch version with its version before the if |
| Engine.JoinBranches | spec/analysis_specs/control_flow_specs/return_type_inference_spec.rb:81-135 | the join after an if: live when either branch reaches it; when both do, each variable and the value are the unions of the branch versions; a branch that returned contributes nothing; writes and reports are those of the whole walk |
| Engine.IfAssigns | spec/analysis_specs/control_flow_specs/return_type_inference_spec.rb:81-98 | an if/else assigning literals to x leaves x as the union of the two literal types and changes nothing else |
| Engine.IfAssignsOne | spec/analysis_specs/control_flow_specs/return_type_inference_spec.rb:120-135 | an if assigning x on one side leaves x as that type joined with x's earlier version |
| Engine.GlobalAssignment | spec/analysis_specs/control_flow_specs/return_type_inference_spec.rb:152-180 | assigning a global evaluates to the assigned value; the global then reads as its earlier type joined with it, and other globals are unchanged |
| Engine.IvarAssignment | spec/analysis_specs/control_flow_specs/return_type_inference_spec.rb:182-221 | the same for an instance variable of the declaring class; other classes' fields of that name are unchanged |
| Engine.UnresolvedCallReports | spec/analysis_specs/control_flow_specs/return_type_inference_spec.rb:21-38 | a built-in call that matches no signature is EMPTY and appends one report on its line naming the method |
| Engine.ContractReported | spec/analysis_specs/control_flow_specs/return_type_inference_spec.rb:137-150 | when a conversion method's inferred type leaves its contract, the last diagnostic is an ImproperOverloadTypeError on its definition line naming it |
| Engine.EvalArrayOfLeaves | spec/analysis_specs/control_flow_specs/return_type_inference_spec.rb:346-372 | an array literal of literals and variables is the tuple of their types, in order |
| Query.ReturnTypeForTypes | spec/analysis_specs/control_flow_specs/return_type_inference_spec.rb:152-180 | a query returns the inferred type and diagnostics and performs the run's writes on the store, which stays valid |
| Scenarios.Rti2Returns | spec/analysis_specs/control_flow_specs/return_type_inference_spec.rb:4-19 | `multiply(x, y)` returns what the overload table gives for `x * y` on the argument types |
| Scenarios.Rti2MultiplyTypes | spec/analysis_specs/control_flow_specs/return_type_inference_spec.rb:11-18 | (Fixnum, Float) gives Float; (Fixnum, Fixnum) gives Fixnum or Bignum |
| Scenarios.GetFooReads | spec/analysis_specs/control_flow_specs/return_type_inference_spec.rb:188-190 | `get_foo` returns the class's accumulated `@foo`, and writes nothing |
| Scenarios.SetFooWrites | spec/analysis_specs/control_flow_specs/return_type_inference_spec.rb:185-187 | `set_foo(x)` returns x's type and writes it to the class's `@foo` |
| Scenarios.QueryGetFoo | spec/analysis_specs/control_flow_specs/return_type_inference_spec.rb:201-202 | a `get_foo` query returns the stored `@foo` of that class and leaves the store unchanged |
| Scenarios.QuerySetFoo | spec/analysis_specs/control_flow_specs/return_type_inference_spec.rb:203-204 | a `set_foo` query returns the argument type and joins it into that class's `@foo` |
| Scenarios.InstanceVariablesByClass | spec/analysis_specs/control_flow_specs/return_type_inference_spec.rb:182-221 | the query sequence of the scenario returns nil, String, nil∪String, Fixnum, nil∪String∪Fixnum, then for TI2 nil, Fixnum, nil∪Fixnum |
| Scenarios.Rti9QuxReads | spec/analysis_specs/control_flow_specs/return_type_inference_spec.rb:162-164 | `qux` returns the accumulated type of `$sim9` |
| Scenarios.Rti9BazWrites | spec/analysis_specs/control_flow_specs/return_type_inference_spec.rb:159-161 | `baz(String)` returns an Integer and writes it to `$sim9` |
| Scenarios.Rti9BarReturns | spec/analysis_specs/control_flow_specs/return_type_inference_spec.rb:155-158 | `bar` writes String then Integer to `$sim9` and returns `$sim9` as it reads after both writes |
| Scenarios.Rti9Writes | spec/analysis_specs/control_flow_specs/return_type_inference_spec.rb:171-176 | after those writes `$sim9` reads as its earlier type joined with String and Integer |
| Scenarios.QueryQux | spec/analysis_specs/control_flow_specs/return_type_inference_spec.rb:168-170 | a `qux` query returns the stored `$sim9` and changes nothing |
| Scenarios.QueryBar | spec/analysis_specs/control_flow_specs/return_type_inference_spec.rb:173-176 | a `bar` query returns the earlier `$sim9` joined with String and Integer, and `$sim9` then reads as that type |
| Scenarios.GlobalsCollectTypes | spec/analysis_specs/control_flow_specs/return_type_inference_spec.rb:152-180 | from a fresh store: `qux` is nil; then `bar`, `$sim9` and `qux` are all String ∪ Fixnum ∪ Bignum ∪ nil |
| Branches.GetsSizeAbove2Pure | spec/analysis_specs/control_flow_specs/return_type_inference_spec.rb:25 | `gets.size > 2` is a Boolean, with no write and no report |
| Branches.Rti3Reports | spec/analysis_specs/control_flow_specs/return_type_inference_spec.rb:21-38 | `sim3` returns EMPTY and reports one NoMatchingTypeSignature for `*` on line 8 |
| Branches.PidAbove10Pure | spec/analysis_specs/control_flow_specs/return_type_inference_spec.rb:85 | `$$ > 10` is a Boolean, with no write and no report |
| Branches.StringOrTwentyMerges | spec/analysis_specs/control_flow_specs/return_type_inference_spec.rb:85-89 | after the if/else, a is String ∪ Fixnum, and nothing is written or reported |
| Branches.StringOrFixnumTimes3 | spec/analysis_specs/control_flow_specs/return_type_inference_spec.rb:90-94 | `a * 3` with a String ∪ Fixnum is String ∪ Fixnum ∪ Bignum |
| Branches.Rti6Returns | spec/analysis_specs/control_flow_specs/return_type_inference_spec.rb:81-98 | RTI6's `multiply` returns String ∪ Fixnum ∪ Bignum |
| Branches.Rti7Head | spec/analysis_specs/control_flow_specs/return_type_inference_spec.rb:104-109 | after the if/else, a is String ∪ Fixnum and `b = a * 3` is String ∪ Fixnum ∪ Bignum, with no write or report |
| Branches.Rti7Reassigned | spec/analysis_specs/control_flow_specs/return_type_inference_spec.rb:109-111 | after `a = 3.14`, `a * 20` is Float and a is Float, whatever a was before, while b keeps the type it had |
| Branches.Rti7Body | spec/analysis_specs/control_flow_specs/return_type_inference_spec.rb:102-112 | after the whole body the value is Float and a is Float, while b, computed before the reassignment, is still String ∪ Fixnum ∪ Bignum |
| Branches.Rti7Returns | spec/analysis_specs/control_flow_specs/return_type_inference_spec.rb:100-118 | RTI7's `multiply` returns Float |
| Branches.Rti8Returns | spec/analysis_specs/control_flow_specs/return_type_inference_spec.rb:120-135 | `switch` returns String ∪ NilClass |
| Calls.Rti4BazReturns | spec/analysis_specs/control_flow_specs/return_type_inference_spec.rb:47-49 | `baz(String)` returns an Integer |
| Calls.Rti4QuxReturns | spec/analysis_specs/control_flow_specs/return_type_inference_spec.rb:50-52 | `qux(Integer)` returns a Boolean |
| Calls.Rti4Returns | spec/analysis_specs/control_flow_specs/return_type_inference_spec.rb:40-58 | `bar` returns a Boolean, through the calls to `baz` and `qux` |
| Calls.Rti5Returns | spec/analysis_specs/control_flow_specs/return_type_inference_spec.rb:60-79 | `make_a_foo` returns exactly `RTI5::Foo`, invariant, for any arguments |
| Calls.StripViolatesContract | spec/analysis_specs/control_flow_specs/return_type_inference_spec.rb:137-150 | `to_s` infers String ∪ nil and ends with one ImproperOverloadTypeError naming `to_s` |
| Calls.Rti18Returns | spec/analysis_specs/control_flow_specs/return_type_inference_spec.rb:376-380 | RTI18's `foo` returns a String whatever it interpolates |
| Calls.Rti19Returns | spec/analysis_specs/control_flow_specs/return_type_inference_spec.rb:381-385 | RTI19's `foo` returns Fixnum ∪ Bignum for any arguments |
| Calls.Rti20Returns | spec/analysis_specs/control_flow_specs/return_type_inference_spec.rb:386-391 | RTI20's `foo` returns a String for any arguments |
| TuplePrograms.IndexReturns | spec/analysis_specs/control_flow_specs/return_type_inference_spec.rb:223-238 | `def m(*args); args[i]; end` returns the i-th argument type |
| TuplePrograms.Rti11Returns | spec/analysis_specs/control_flow_specs/return_type_inference_spec.rb:223-238 | `foo` is the first argument type and `bar` the second; on (Fixnum, Proc) they are Fixnum and Proc |
| TuplePrograms.SliceReturns | spec/analysis_specs/control_flow_specs/return_type_inference_spec.rb:240-269 | `def m(*args); args[lo..hi]; end` returns the slice of the argument types |
| TuplePrograms.Rti12Returns | spec/analysis_specs/control_flow_specs/return_type_inference_spec.rb:240-256 | RTI12's four methods return the slices `0..1`, `1..3`, `-3..4`, `-4..4` of the argument types |
| TuplePrograms.Rti12Slices | spec/analysis_specs/control_flow_specs/return_type_inference_spec.rb:257-268 | on three arguments those slices are the first two, the last two, all three, and nil |
| TuplePrograms.DestructureReturns | spec/analysis_specs/control_flow_specs/return_type_inference_spec.rb:271-300 | `a, b, c = args` followed by target i returns the i-th argument type |
| TuplePrograms.Rti13Returns | spec/analysis_specs/control_flow_specs/return_type_inference_spec.rb:271-300 | `foo`, `bar`, `baz` return arguments 0, 1, 2; `baz` on two arguments is nil |
| TuplePrograms.SizeKnown | spec/analysis_specs/control_flow_specs/return_type_inference_spec.rb:305-309 | `args.size` and `args.length` are Fixnums whose value is the argument count |
| TuplePrograms.FromEndReturns | spec/analysis_specs/control_flow_specs/return_type_inference_spec.rb:302-313 | `args[args.size - k]` returns the argument type at position `|args| - k` |
| TuplePrograms.Rti14Returns | spec/analysis_specs/control_flow_specs/return_type_inference_spec.rb:302-313 | `foo` and `bar` are the second argument from the end, `baz` the argument at `|args| - 4` |
| TuplePrograms.Rti14Positions | spec/analysis_specs/control_flow_specs/return_type_inference_spec.rb:315-330 | on (Fixnum, Proc, TrueClass) those are Proc and TrueClass; on (Fixnum, Proc), Fixnum |
| TuplePrograms.ConvertKeeps | spec/analysis_specs/control_flow_specs/return_type_inference_spec.rb:333-344 | `to_a` or `to_ary` on a tuple-typed expression is the same tuple and changes nothing |
| TuplePrograms.Rti15Returns | spec/analysis_specs/control_flow_specs/return_type_inference_spec.rb:333-344 | `args.to_a.to_ary.to_a.to_a` is the tuple of the argument types |
| TuplePrograms.Rti16Returns | spec/analysis_specs/control_flow_specs/return_type_inference_spec.rb:346-358 | `[1, :foo, 'string', {}]` is the tuple (Fixnum, Symbol, String, Hash) |
| TuplePrograms.Rti17Returns | spec/analysis_specs/control_flow_specs/return_type_inference_spec.rb:360-372 | `[x, :foo, 'string', {}]` is (type of x, Symbol, String, Hash) |
| TuplePrograms.Rti22Returns | spec/analysis_specs/control_flow_specs/return_type_inference_spec.rb:403-415 | `[x, :foo] + ['foobar', x]` is (t, Symbol, String, t) |
| TuplePrograms.Rti21Returns | spec/analysis_specs/control_flow_specs/return_type_inference_spec.rb:417-430 | `[x, :foo] * 3` is (t, Symbol) three times over |

## Left out

- Parsing Ruby and building the control-flow graph: method bodies are given as a small syntax tree, with each call's line number.
- `gets` is modelled as a String and `$$` as a Fixnum. Input and the process id are not modelled.
- Floating-point arithmetic: Float is a type only.
- The overload tables of the standard library: only the signatures that these programs call are in the table.
- Loops, blocks, `rescue` and method arity checks: no modelled program uses them. `Foo.new` yields an instance of Foo without analysing `initialize`.
- Constant-path resolution: `Foo` inside module RTI5 is written directly as the class name `RTI5::Foo`.
- The singleton class of a module `M` is named `#<Class:M>`. Module methods are its methods, and the receiver type of a module method is an instance of it.
- Memoisation of inferred method types, and the in-flight seed that stops recursive inference: `InferReturn` instead takes a `fuel` bound on call depth, and a call past the bound yields EMPTY. The scenario lemmas state the fuel their programs need (1, 2 or 3).
- Engine.CallMethod: a union receiver that contains classes of the analysed program is resolved only against the built-in table. No modelled program dispatches on such a union.
- Overloads.Resolve: a call with an EMPTY operand yields EMPTY without a further report, and only calls of zero or one argument have signatures.
- Engine.UnresolvedCallReports: a call is reported only when no member combination of its operands matches; a union where some members match and others do not resolves to the matching results silently.
- Engine.CallSuper: a `super` for which no superclass defines the method is EMPTY, with one NoMatchingTypeSignature naming `super`. No modelled program does this.
- Tuples.AtUnknown: an index whose value is not known gives any element or nil. This bound is an over-approximation; no modelled program indexes with an unknown integer.
- Fields.Valid: every field entry contains NilClass, because a field may be read before it is ever written.
- The RSpec matchers (`equal_type`, `have_error`) are modelled by type equality and by a diagnostic's kind, line and the name its message mentions.
- spec/analysis_specs/sexp_analysis_spec.rb is not part of this model.
