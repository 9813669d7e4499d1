# node_impl in Dafny

A model of the Ruby gem `node_impl`: a doubly-linked `Node` with a `back`
reference, a `data` payload and a `front` reference. The model covers

- the `Node` class (`lib/node_impl.rb`): validated private setters,
  `attach_*`/`detach_*`, `substitute`, the freezing getters `b`/`f`,
  `shallow_clone`, `clone_df`, attribute equality `==`, identity `===` and
  the `inspect` dispatch — as a Dafny `class Node` whose methods update its
  fields in place (module `NodeImpl`);
- the `StateHelper` and `KindHelper` mixins: pure predicates over the nil
  checks of `back`, `data` and `front` (modules `StateHelper`, `KindHelper`);
- the `InspectHelper` diagram renderer: string building with fixed widths
  (module `InspectHelper`).

Ruby exceptions are values: mutators return an `Outcome` (`Pass` or
`Fail(error)`) and value-returning operations a `Result`, with the error
enum `NodeError | DataError | ArgumentError | FrozenError`; on every failure
the node is left exactly as it was. A Ruby argument of any class is a
`Value`: `VNode(node)` or `VData(data)`, nil being `VData(Nil)`.
`DataType.instance?` (an external library) is the predicate
`Payload.IsDataType`, which accepts nil, numbers, booleans, symbols,
strings and times and rejects instances of any other class; the node's
`data` field has the subset type `DataType`, so it holds an accepted value
at all times. `Object#freeze` is the `frozen` flag: every instance variable
assignment on a frozen node fails with `FrozenError`, after the setter's own
argument check (the Ruby setter validates first, then assigns).

Where the code and its documentation differ, the model follows the code:

- `shallow_clone` is documented to keep self's data reference, but it
  passes `data().clone()` to the new node, so a String payload becomes a
  distinct copy equal by value (payloads are values here, so the model
  cannot tell the two apart). Its `back().clone()` and `front().clone()`
  make a non-nil neighbour a fresh copy (same fields, same frozen state),
  so the clone is `==` to the original only when the original has no
  attachments.
- `clone_df` is documented to clone deeply and freeze the clones, but it
  does not copy anything: the new node holds the very same `back`, `data`
  and `front` references, after `b()`/`f()` froze the neighbours; the clone
  itself is not frozen and is `==` to the original.
- `attach_back`/`attach_front` are documented to return nil, but their last
  expression is the assignment `self.back = n` (`self.front = n`), whose
  value is `n`; the model returns `n` on success.

`Node#inspect` calls `lone_insp`, `pioneer_insp`, `base_insp` and
`common_insp`, which none of the files modelled here defines: the modelled
helper (lib/node_impl/inspect_helper.rb) defines `only_data_insp`,
`nil_front_insp`, `nil_back_insp` and `doubly_linked_insp`, while
`lib/node_impl.rb` loads the mixed-in `InspectHelper` from
`helpers/inspect_helper`, a file that is not part of this model. As
written, `inspect` therefore raises NoMethodError unless that other file or
the superclass `NodeInt` supplies those four methods. `NodeImpl.Node.Lines`
is a reconstructed mapping: it pairs each dispatch name with the helper
layout for the same attachment state (no attachments: only-data; back only:
nil-front; front only: nil-back; both: doubly-linked).

`substitute` replaces only `data` and returns its argument, as documented;
the tests in test/node_impl_test.rb:137-166 that substitute a Node and then
compare neighbours predate that and would fail with DataError here.

Every argument that Ruby defaults to `nil` (`initialize`, the setters,
`attach_*`, `substitute`, `==`, `===`) defaults to `VData(Nil)` in the model.

`kind` is modelled on a node's state although `Node` mixes in only
`StateHelper`; where both mixins define `base`/`pioneer` they agree.

## Model

| member | source | states |
|---|---|---|
| `NodeImpl.Node.New` | lib/node_impl.rb:37-43 | initialize assigns back, data, front through the setters in that order; it fails with the first setter's error (NodeError, DataError, NodeError) exactly when an argument is invalid, else yields a fresh unfrozen node holding the arguments |
| `NodeImpl.Node.SetBack` | lib/node_impl.rb:314-323 | back= accepts only a Node or nil; anything else fails with NodeError and leaves back unchanged; a frozen node fails with FrozenError; data and front never change |
| `NodeImpl.Node.SetData` | lib/node_impl.rb:332-341 | data= stores the value only when DataType.instance? holds, else DataError and data unchanged; FrozenError on a frozen node; back and front never change |
| `NodeImpl.Node.SetFront` | lib/node_impl.rb:348-357 | front= accepts only a Node or nil, else NodeError with front unchanged; FrozenError on a frozen node; back and data never change |
| `NodeImpl.Node.AttachBack` | lib/node_impl.rb:193-201 | any non-Node, nil included, fails with ArgumentError and changes nothing; on success back becomes the argument, data/front are untouched, and the argument is returned |
| `NodeImpl.Node.AttachFront` | lib/node_impl.rb:212-220 | any non-Node, nil included, fails with ArgumentError and changes nothing; on success front becomes the argument, back/data are untouched, and the argument is returned |
| `NodeImpl.Node.DetachBack` | lib/node_impl.rb:227-229 | back becomes nil and nothing else changes; it fails only on a frozen node; a second call leaves the same state (idempotent) |
| `NodeImpl.Node.DetachFront` | lib/node_impl.rb:236-238 | front becomes nil and nothing else changes; fails only on a frozen node; idempotent |
| `NodeImpl.Node.Substitute` | lib/node_impl.rb:77-80 | replaces only data and returns its argument; DataError for a non-DataType value (a Node included) with data unchanged; back and front never change |
| `NodeImpl.Node.B` | lib/node_impl.rb:87-89 | returns back, and back (when a node) is frozen afterwards; only frozen flags change |
| `NodeImpl.Node.F` | lib/node_impl.rb:105-107 | returns front, and front (when a node) is frozen afterwards |
| `NodeImpl.Node.CloneRef` | lib/node_impl.rb:53 | Object#clone on back/front: nil stays nil; a node becomes a fresh node with the same fields and frozen state |
| `NodeImpl.Node.ShallowClone` | lib/node_impl.rb:52-55 | a fresh node with self's data whose non-nil back/front are fresh copies (distinct from self's and from each other) and whose nil attachments stay nil; it is `==` self iff self has no attachments, and never `===` self |
| `NodeImpl.Node.CloneDf` | lib/node_impl.rb:63-66 | a fresh unfrozen node holding self's very back, data and front, so it is `==` but not `===` self; self's neighbours are frozen afterwards |
| `NodeImpl.IsNodeOrNil` | lib/node_impl.rb:317 | the argument check of back= and front=: a Node or nil (also used at lib/node_impl.rb:351) |
| `NodeImpl.Node.Equals` | lib/node_impl.rb:127-137 | `==`: false for a non-Node; otherwise back and front identical (or both nil) and data equal by value; its properties are the three lemmas below |
| `NodeImpl.Node.Identical` | lib/node_impl.rb:146-148 | `===`: the argument is this very node; see `IdenticalIsIdentity` |
| `NodeImpl.EqualsOnlyNodes` | lib/node_impl.rb:127-131 | `==` is false for every non-Node argument |
| `NodeImpl.EqualsIsEquivalence` | lib/node_impl.rb:127-137 | `==` (back and front by identity, data by value) is reflexive, symmetric and transitive |
| `NodeImpl.IdenticalIsIdentity` | lib/node_impl.rb:146-148 | `===` holds exactly for the node itself and implies `==` |
| `NodeImpl.Node.Lines` | lib/node_impl.rb:167-176 | the layout picked by attachment state fails exactly when the data text is too long; its upper row is the label width plus 4 and its lower row 30, each plus 3 per attachment; its rows in closed form are given by `InspectContent` |
| `NodeImpl.LinesArrows` | lib/node_impl/inspect_helper.rb:57-109 | with the layout picked by state, the upper row ends in `-->` iff front is attached and the lower row starts with `<--` iff back is attached |
| `NodeImpl.Node.Inspect` | lib/node_impl.rb:165-182 | the diagram fails (ArgumentError) exactly when the data text is too long; otherwise its width is the label's plus 35 plus 6 per attachment, and its content is given by `InspectContent` |
| `NodeImpl.InspectContent` | lib/node_impl.rb:153-182 | for every attachment state the upper row is the label between pipes (`UpperRow`), after three blanks when back is attached and before `-->` when front is attached; the lower row is the centred `data: ` text between pipes (`LowerRow`), after `<--` when back is attached and before three blanks when front is attached; the diagram joins them with a newline |
| `NodeImpl.InspectLayout` | lib/node_impl.rb:165-182 | the diagram is upper row, newline, lower row, with the newline right after the upper row's width; the upper row ends in `-->` iff front is attached, the lower row starts with `<--` iff back is attached, and the lower row is 30, 33 or 36 wide (the rows' content is `InspectContent`) |
| `NodeImpl.NodeState` | lib/helpers/state_helper.rb:14-62 | on a node: back_attached iff back is non-nil, front_attached iff front is non-nil, no_attachments iff both nil, empty iff data is nil, base iff only front is attached, pioneer iff only back is attached |
| `NodeImpl.NodeKind` | lib/helpers/kind_helper.rb:15-26 | a node's kind is lone, base, pioneer or common by the nullity of back and front |
| `StateHelper.BackAttached` | lib/helpers/state_helper.rb:14-16 | back_attached: back is not nil; tied to the node by `NodeState` |
| `StateHelper.FrontAttached` | lib/helpers/state_helper.rb:23-25 | front_attached: front is not nil |
| `StateHelper.NoAttachments` | lib/helpers/state_helper.rb:32-34 | no_attachments: neither side attached |
| `StateHelper.Empty` | lib/helpers/state_helper.rb:41-43 | empty: data is nil |
| `StateHelper.Base` | lib/helpers/state_helper.rb:50-52 | base: back nil and front attached |
| `StateHelper.Pioneer` | lib/helpers/state_helper.rb:60-62 | pioneer: back attached and front nil |
| `StateHelper.ShapesExclusive` | lib/helpers/state_helper.rb:32-62 | no_attachments, base and pioneer are pairwise exclusive; all three false iff both sides are attached |
| `StateHelper.AttachmentIndependentOfData` | lib/helpers/state_helper.rb:14-62 | the attachment predicates ignore data and empty reads only data |
| `KindHelper.Lone` | lib/helpers/kind_helper.rb:35-37 | lone: no_attachments; see `AgreesWithStateHelper` |
| `KindHelper.Common` | lib/helpers/kind_helper.rb:45-47 | common: both sides attached |
| `KindHelper.Base` | lib/helpers/kind_helper.rb:55-57 | base: no back attachment and a front attachment |
| `KindHelper.Pioneer` | lib/helpers/kind_helper.rb:66-68 | pioneer: a back attachment and no front attachment |
| `KindHelper.Kind` | lib/helpers/kind_helper.rb:15-26 | kind never falls through the case, and returns "lone", "common", "base" or "pioneer" exactly when that predicate holds |
| `KindHelper.ExactlyOneKind` | lib/helpers/kind_helper.rb:35-68 | exactly one of lone, common, base, pioneer holds |
| `KindHelper.AgreesWithStateHelper` | lib/helpers/kind_helper.rb:35-68 | lone is no_attachments; KindHelper's base and pioneer equal StateHelper's |
| `KindHelper.KindIgnoresData` | lib/helpers/kind_helper.rb:15-68 | the kind does not depend on data |
| `KindHelper.KindTable` | lib/helpers/kind_helper.rb:15-68 | the four attachment combinations map to lone, base, pioneer, common |
| `InspectHelper.Spaces` | lib/node_impl/inspect_helper.rb:43 | `' ' * count` fails with ArgumentError exactly for a negative count, else is count blanks |
| `InspectHelper.UpperRow` | lib/node_impl/inspect_helper.rb:29-31 | the label between `"| "` and `" |"`, so its width is the label's plus 4 |
| `InspectHelper.LowerRow` | lib/node_impl/inspect_helper.rb:38-49 | fails exactly when `"data: "+text` is longer than 26; otherwise it is 30 wide, framed by `"| "` and `" |"`, with the text centred: floor((26-n)/2) blanks left, as many right plus one when n is odd |
| `InspectHelper.PaddedBodyCentred` | lib/node_impl/inspect_helper.rb:42-45 | the two padding runs of floor((26-n)/2) blanks plus the conditional extra blank centre the text in exactly 26 characters |
| `InspectHelper.OnlyDataInsp` | lib/node_impl/inspect_helper.rb:57-64 | upper and lower rows without arrows; fails exactly when the text does not fit |
| `InspectHelper.NilBackInsp` | lib/node_impl/inspect_helper.rb:72-79 | `-->` after the upper row, 3 blanks after the lower row, lower width 33 |
| `InspectHelper.NilFrontInsp` | lib/node_impl/inspect_helper.rb:87-94 | 3 blanks before the upper row, `<--` before the lower row, lower width 33 |
| `InspectHelper.DoublyLinkedInsp` | lib/node_impl/inspect_helper.rb:102-109 | blocks on both ends of both rows, lower width 36 |
| `InspectHelper.LayoutsAlign` | lib/node_impl/inspect_helper.rb:57-109 | in every layout both rows open their box in the same column (0, or 3 with a back arrow), each closing pipe ends its box, and upper width minus lower width is the label width minus 26 |
| `InspectHelper.LowerRowGolden` | lib/node_impl/inspect_helper.rb:38-49 | the lower row for `test_symbol` is a pipe, 5 blanks, `data: test_symbol`, 6 blanks, a pipe |

## Left out

- `DataType.instance?` and the `data_library`/`node_error_library` gems: external; the validator is a closed stand-in (`Payload.IsDataType`) and errors carry no message.
- `d()`: returns data after freezing it; payloads are immutable values here, so freezing them is not modelled and `clone_df` passes data on directly.
- `shallow_clone` clones data with `data().clone()`; for a String this is a new object equal by value. Payloads are values, so the copy is indistinguishable from the original here.
- `type()` (Ruby class reflection) and `adapt()` (`NodeAdapter`, a class not shown).
- `to_s` (the node's label) and the data's string conversion: Ruby object printing; `Inspect` takes both as string parameters.
- The `require_relative 'helpers/inspect_helper'` load path (the modelled helper lives under `node_impl/`): loading is not modelled; the helper is taken as mixed in.
- `lib/node_impl/node_helper.rb` (a thin wrapper over Ruby's `inspect`/`to_s`) and `lib/node_impl/version.rb` (a version constant).
- `test/node_impl_test.rb` targets an older API (`copy_constructor`, public `back()`/`data()`, a hash-style `inspect`) absent from `lib/node_impl.rb`.
- Float payloads are kept as exact reals; Ruby's Integer/Float distinction and float formatting are not modelled. NaN and the infinities cannot be represented.
- NodeImpl.EqualsIsEquivalence: reflexivity of `==` holds here because every payload equals itself; in Ruby a Float NaN payload is not `==` to itself (lib/node_impl.rb:132), so a node holding NaN is not `==` to itself. The fact holds for non-NaN payloads only.
- NodeImpl.Node.ShallowClone: its `==` clause (equal to self iff no attachments) holds for non-NaN payloads only, for the same reason.
- NodeImpl.Node.CloneDf: its `==` clause (the clone is `==` self) holds for non-NaN payloads only, for the same reason.
- The superclass `NodeInt` is not part of this model: it is assumed to keep Object's `clone`, `freeze` and `eql?` (identity), and the four `*_insp` dispatch targets of `inspect` are taken to be the helper layouts described above.
- Concurrency: the node has none.
