# XmlWriter, modelled in Dafny

A model of `XmlWriter`, the streaming XML serializer of the `xml_writer`
Rust crate. The writer never builds a tree. It writes straight to an output
sink and keeps a small state:

- a stack of open elements, each flagged once a child has been written under it;
- a parallel stack of the namespaces current when each element was opened;
- a flag for a start tag whose `>` is still pending;
- a transient `children` flag;
- two mode flags (`pretty`, `very_pretty`);
- a `newline` flag that suppresses the line break before the first indented node;
- the public `namespace` field.

The model has nine modules:

- `XmlWriter` (xml_writer.dfy) holds the state as an immutable `Writer` record. Each operation is a pure function that returns a `Written`: the next state and the text the call appends to the sink.
- `Session` (session.dfy) adds calls as data (`Call`) and sessions as call lists. The sink after a session is the concatenation of what its calls wrote.
- `Escaping` (escaping.dfy) holds the character escaper and its inverse.
- `AttrReading` (attributes.dfy) holds a reader for attribute text, used to state `attr`, `attr_esc` and `ns_decl` as round trips.
- `LineBreaks` (line_breaks.dfy) covers where line breaks can come from.
- `Behaviour` (behaviour.dfy) holds properties of short call sequences: self-closing, indentation, which namespace a closing tag carries, and the quirks of `elem`, `elem_text` and root-level pretty printing.
- `Scenarios` (scenarios.dfy) holds the crate's four unit tests as evaluation lemmas.
- `Wrappers` and `SeqFacts` are small shared helpers.

How the model relates to the code:

- Each private helper of the writer is a function of its own. `indent` is `Indent`, `close_elem` is `CloseElem` and `escape` is `Escaping.Escape`. `ns_prefix` is `PrefixText`, which `StartTag` and `EndTag` use for the text before and after the name.
- A panic on misuse is a precondition: `end_elem` needs both stacks non-empty, and `attr`, `attr_esc` and `ns_decl` need a pending start tag. `Session.Allowed` collects these preconditions for a single call.
- `Valid` is the invariant every operation keeps:
  - the stacks have equal length;
  - a pending start tag belongs to an open element with no child yet;
  - very-pretty mode implies pretty mode;
  - `children` is down between calls.
- Because `children` is down between calls, `close_elem` writes `/>` in very-pretty mode for any pending start tag that an operation reaches without raising the flag first. Those operations are `end_elem`, `elem` and `elem_text`.
- `elem` and `elem_text` do not flag the parent as having children. In very-pretty mode, a parent whose start tag is still pending is therefore self-closed before the child, and its `end_elem` then writes nothing (`Behaviour.VeryPrettyElemSelfClosesParent`). The model keeps this as the code has it.
- The unit-test lemmas state the expected document as the concatenation of the literal pieces each call writes, in call order. The `Document` lemmas join those pieces into consecutive stretches of the string the test compares with; read left to right, the stretches spell out that string. One equality with the whole string at once is beyond the solver's budget.
- In pretty mode the code indents nothing at depth 0 (src/xml_writer.rs:126). So a second root-level comment follows the first with no line break, and `Behaviour.PrettyRootSiblingsShareLine` states it that way. This follows the code, not the more natural reading in which every root sibling after the first starts a new line.
- In very-pretty mode the line break before an indented closing tag depends on `newline`. Every very-pretty writer built by the constructors has it set once something is indented. A writer switched to very-pretty mode while elements are open may not, and `Behaviour.VeryPrettyEndElem` states the general case.

## Model

| member | source | states |
|---|---|---|
| Escaping.EscapeChar | src/xml_writer.rs:305-314 | a character is rewritten exactly when it is one of `"` `'` `&` `<` `>`, or a backslash inside an identifier; a replacement is never empty |
| Escaping.Escape | src/xml_writer.rs:304-322 | escaped output never contains `<`, `>`, `"` or `'`, and is never shorter than its input |
| Escaping.EscapeConcat | src/xml_writer.rs:305-321 | escaping works character by character, so it distributes over concatenation |
| Escaping.UnescapeEscapeChar | src/xml_writer.rs:306-313 | each replacement text reads back as exactly the character it replaced |
| Escaping.UnescapeEscape | src/xml_writer.rs:304-322 | unescaping undoes escaping, for text and identifiers alike |
| Escaping.EscapeInjective | src/xml_writer.rs:304-322 | two inputs with the same escaped form are equal |
| Escaping.EscapeIdentity | src/xml_writer.rs:305-313 | escaping leaves a text unchanged if and only if it holds no character the escaper rewrites: every other character passes through |
| Escaping.EscapeKeepsPlainChar | src/xml_writer.rs:313 | a character that is neither rewritten nor part of a replacement occurs in the output if and only if it occurs in the input |
| Escaping.EscapeBackslashes | src/xml_writer.rs:311 | escaping an identifier doubles the number of backslashes; escaping text keeps it |
| Escaping.IdentEscapeDiffersOnBackslash | src/xml_writer.rs:311 | identifier escaping and text escaping give the same output if and only if the input has no backslash |
| XmlWriter.CompactMode | src/xml_writer.rs:45-57 | a fresh compact writer is valid, with empty stacks, no pending tag, no namespace and `newline` down |
| XmlWriter.PrettyMode | src/xml_writer.rs:60-72 | the same for a fresh pretty writer |
| XmlWriter.VeryPrettyMode | src/xml_writer.rs:75-87 | the same for a fresh very-pretty writer |
| XmlWriter.SetCompactMode | src/xml_writer.rs:90-93 | the mode becomes compact, no other field changes, and validity is kept |
| XmlWriter.SetPrettyMode | src/xml_writer.rs:96-99 | the mode becomes pretty, no other field changes, and validity is kept |
| XmlWriter.SetVeryPrettyMode | src/xml_writer.rs:102-105 | the mode becomes very pretty, no other field changes, and validity is kept |
| XmlWriter.SetNamespace | src/xml_writer.rs:20-21 | assigning `namespace` changes that field only and keeps validity |
| XmlWriter.Write | src/xml_writer.rs:341-344 | a raw write appends its text unchanged and touches no state |
| XmlWriter.Dtd | src/xml_writer.rs:109-113 | the declaration line with the encoding unescaped, ending in a line break; no state change |
| XmlWriter.Spaces | src/xml_writer.rs:122-124 | `n` indentation steps are `2n` spaces |
| XmlWriter.Indent | src/xml_writer.rs:115-133 | compact mode writes nothing; pretty mode writes a line break and two spaces per depth, only at depth above 0; very-pretty mode writes two spaces per depth after a line break, except while `newline` is down, and raises `newline`; no other field changes |
| XmlWriter.CloseElem | src/xml_writer.rs:214-224 | a pending start tag is closed with `/>` in very-pretty mode while `children` is down and with `>` otherwise; with none pending, nothing is written |
| XmlWriter.MarkParent | src/xml_writer.rs:196-200 | only the innermost open element changes, and it becomes flagged as having children; names and depth are kept |
| XmlWriter.OpenChild | src/xml_writer.rs:194-200 | a child node closes a pending start tag with `>`, never `/>`, and flags its parent |
| XmlWriter.BeginElem | src/xml_writer.rs:193-211 | pushes the element and the current namespace, flags the parent, leaves the start tag pending, writes `<ns:name` after the indentation for the old depth, and keeps validity |
| XmlWriter.EndElem | src/xml_writer.rs:227-252 | needs both stacks non-empty; pops both; outside very-pretty mode writes `</ns:name>` with the popped namespace; in very-pretty mode writes nothing more for an element without children and an indented closing tag for one with children; keeps validity |
| XmlWriter.Elem | src/xml_writer.rs:165-173 | `<ns:name/>` after the indentation, leaving the stack, including the parent's flag, untouched; keeps validity |
| XmlWriter.ElemText | src/xml_writer.rs:176-190 | `<ns:name>`, the escaped text and a closing tag with no namespace prefix, leaving the stack untouched; keeps validity |
| XmlWriter.EmptyElem | src/xml_writer.rs:255-270 | a self-closed child element: closes a pending start tag with `>`, flags the parent, keeps validity |
| XmlWriter.Attr | src/xml_writer.rs:274-286 | needs a pending start tag; appends exactly ` name="value"` unescaped and changes no state |
| XmlWriter.AttrEsc | src/xml_writer.rs:289-301 | needs a pending start tag; appends ` name="value"` with the name escaped as an identifier and the value as text; changes no state |
| XmlWriter.NsDecl | src/xml_writer.rs:146-162 | needs a pending start tag even for an empty map; changes no state; writes nothing if and only if the map is empty |
| XmlWriter.Text | src/xml_writer.rs:325-338 | escaped text as a child node, indented only in very-pretty mode; flags the parent and keeps validity |
| XmlWriter.Cdata | src/xml_writer.rs:353-368 | a raw CDATA section as a child node, indented only in very-pretty mode; flags the parent and keeps validity |
| XmlWriter.Comment | src/xml_writer.rs:371-384 | `<!-- text -->` with the text escaped, indented in every indenting mode; flags the parent and keeps validity |
| XmlWriter.EndElems | src/xml_writer.rs:388-390 | `n` consecutive `end_elem` calls drop the top `n` entries of both stacks, keep mode and namespace, and keep validity |
| XmlWriter.Close | src/xml_writer.rs:387-392 | empties the element stack and, on a valid writer, the namespace stack, leaving no tag pending; on an empty stack it writes nothing and changes nothing |
| AttrReading.AttrReadsBack | src/xml_writer.rs:274-286 | an `attr` whose name and value hold no double quote reads back as exactly that pair |
| AttrReading.AttrEscReadsBack | src/xml_writer.rs:289-301 | an `attr_esc` attribute always reads back, and unescaping the pair read gives the name and value written |
| AttrReading.RawQuotedValueMisreads | src/xml_writer.rs:426 | the raw attribute with a quoted value that the tests write does not read back: it reads as an empty value followed by stray text |
| AttrReading.NsDeclReadsBack | src/xml_writer.rs:146-162 | when no prefix or URI in the map holds a double quote, `ns_decl` writes one readable `xmlns` or `xmlns:prefix` attribute per pair, in map order |
| Session.Step | src/xml_writer.rs:43-392 | every public call that does not panic keeps validity; `begin_elem` deepens the stack by one, `end_elem` shortens it by one, and every other call except `close` leaves the depth alone |
| Session.Run | src/xml_writer.rs:43-392 | a session of calls that do not panic, started on a valid writer, ends on a valid writer |
| Session.ValidAllowed | src/xml_writer.rs:227-252 | on a valid writer, the only calls that panic are `end_elem` on an empty stack and `attr`, `attr_esc` or `ns_decl` with no start tag pending |
| Session.RunCons | src/xml_writer.rs:43-392 | a session's first call runs first and writes first |
| Session.RunConcat | src/xml_writer.rs:43-392 | running two sessions in turn is running their concatenation; the sink only grows |
| Session.RunSnoc | src/xml_writer.rs:43-392 | one more call appends its text to what the session wrote |
| Session.RunDepth | src/xml_writer.rs:201-202 | without `close`, the final depth is the initial depth plus the `begin_elem` calls minus the `end_elem` calls |
| Session.BalancedRunEmptiesStack | src/xml_writer.rs:227-252 | a balanced session from an empty stack ends with an empty stack |
| Session.CloseEndsDocument | src/xml_writer.rs:387-392 | `close` after any session of a valid writer is allowed and leaves both stacks empty and no tag pending |
| LineBreaks.EscapeNoBreak | src/xml_writer.rs:304-322 | escaped output holds a line break if and only if the input does |
| LineBreaks.StepNoBreak | src/xml_writer.rs:115-133 | in compact mode, a call other than `dtd` or a pretty-mode setter whose arguments hold no line break writes none, and the writer stays compact with line-break-free names and namespaces |
| LineBreaks.CompactRunNoBreak | src/xml_writer.rs:115-133 | a whole session of such calls on such a compact writer writes no line break |
| LineBreaks.EndElemsNoBreak | src/xml_writer.rs:388-390 | in compact mode, ending any number of open elements with line-break-free names writes no line break |
| LineBreaks.CloseNoBreak | src/xml_writer.rs:387-392 | in compact mode `close` writes no line break and leaves the writer compact and line-break free |
| LineBreaks.CompactDocumentNoBreak | src/xml_writer.rs:45-57 | a document written from a fresh compact writer holds no line break unless a call brings one in: a line-break argument, `dtd`, or a switch to a pretty mode |
| LineBreaks.DtdEndsWithBreak | src/xml_writer.rs:112 | the declaration always holds a line break, whatever the mode or the encoding, so it is never part of a break-free compact document |
| Behaviour.BeginEndRestoresStacks | src/xml_writer.rs:193-252 | `begin_elem` then `end_elem` restores both stacks, except that the parent is now flagged, and leaves no tag pending |
| Behaviour.BeginElemTop | src/xml_writer.rs:201-205 | after `begin_elem` the new innermost frame is the element, still childless, with the current namespace beside it; its start tag is pending, and in very-pretty mode `newline` is up |
| Behaviour.TextTop | src/xml_writer.rs:325-338 | `text` inside an element flags exactly that element as having children and leaves the depth and the namespace stack alone |
| Behaviour.SelfCloseOnlyInVeryPretty | src/xml_writer.rs:214-224 | on a valid writer, a pending start tag is closed with `/>` if and only if the mode is very pretty, and with `>` if and only if it is not |
| Behaviour.VeryPrettyEndElem | src/xml_writer.rs:233-245 | very-pretty `end_elem` writes `/>` for a childless element with its tag pending, nothing for one whose tag was already closed, and an indented `</ns:name>` for one with children |
| Behaviour.VeryPrettyEmptyElementSelfCloses | src/xml_writer.rs:233-238 | in very-pretty mode, `begin_elem` directly followed by `end_elem` writes `<ns:name/>` and nothing more |
| Behaviour.EmptyElementPairedTags | src/xml_writer.rs:240-245 | outside very-pretty mode the same pair writes `>` and `</ns:name>` |
| Behaviour.EndElemWithChildren | src/xml_writer.rs:233-245 | an element flagged as having children gets a closing tag with the namespace pushed with it; in very-pretty mode, once something has been indented, that tag goes on a new line indented to the parent's depth |
| Behaviour.ClosingTagUsesOpeningNamespace | src/xml_writer.rs:227-252 | the closing tag carries the namespace current at `begin_elem`, even after `namespace` changes inside the element |
| Behaviour.PrettyBeginIndent | src/xml_writer.rs:125-131 | in pretty mode a start tag below the root goes on a new line indented two spaces per depth; at the root it gets neither |
| Behaviour.PrettyRootSiblingsShareLine | src/xml_writer.rs:126 | two root-level comments in pretty mode are written with no line break or indentation before either |
| Behaviour.UnindentedComment | src/xml_writer.rs:371-384 | a comment with no pending start tag and nothing to indent is written bare |
| Behaviour.VeryPrettyElemSelfClosesParent | src/xml_writer.rs:165-173 | in very-pretty mode `elem` straight after `begin_elem` self-closes the parent, and the parent's `end_elem` then writes nothing |
| Behaviour.ElemTextClosingTagUnprefixed | src/xml_writer.rs:176-190 | in every mode and whether or not a start tag is pending, `elem_text` under namespace `p` writes the usual closing of a pending tag and indentation, then `<p:name>`, the escaped text and `</name>`: the start tag is prefixed but the closing tag is not |
| Behaviour.EmptyStackNothingPending | src/xml_writer.rs:202-221 | on a valid writer with no open element no start tag is pending, so `close_elem` writes nothing; `end_elem` on an empty stack panics before writing |
| Behaviour.SplitQName | src/xml_writer.rs:137-143 | reference reader for a qualified name: a name with no colon reads as having no namespace |
| Behaviour.PrefixTextReadsBack | src/xml_writer.rs:137-143 | what `ns_prefix` writes before a name reads back as exactly that namespace and name, when neither holds a colon; without a namespace nothing is written before the name |
| Behaviour.XmlnsNameReadsBack | src/xml_writer.rs:155-158 | the attribute name `ns_decl` writes reads as the bare `xmlns` for the default namespace and as the prefix inside the `xmlns` namespace otherwise |
| Behaviour.EndTagMirrorsStartTag | src/xml_writer.rs:204-244 | a closing tag carries the same qualified name, prefix included, as the start tag written with the same namespace |
| Behaviour.ClosingTags | src/xml_writer.rs:387-392 | reference definition of the closing tags of a stack, innermost first, each with its pushed namespace; empty if and only if the stack is |
| Behaviour.EndElemClosingTag | src/xml_writer.rs:227-252 | outside very-pretty mode one `end_elem` closes a pending tag, writes the innermost closing tag and pops both stacks |
| Behaviour.EndAllWritesClosingTags | src/xml_writer.rs:388-390 | outside very-pretty mode, ending every open element writes the reference closing tags |
| Behaviour.CloseWritesClosingTags | src/xml_writer.rs:387-392 | outside very-pretty mode `close` closes a pending tag and writes every closing tag, innermost first |
| Scenarios.CompactTest | src/xml_writer.rs:412-440 | the `compact` test's calls write exactly the document it expects |
| Scenarios.PrettyTest | src/xml_writer.rs:443-471 | the `pretty` test's calls write exactly the document it expects |
| Scenarios.VeryPrettyTest | src/xml_writer.rs:474-502 | the `very_pretty` test's calls write exactly the document it expects |
| Scenarios.CompactDocument | src/xml_writer.rs:439 | the pieces of the `compact` test join to consecutive stretches of its expected string |
| Scenarios.PrettyDocument | src/xml_writer.rs:470 | the pieces of the `pretty` test join to consecutive stretches of its expected string |
| Scenarios.VeryPrettyDocument | src/xml_writer.rs:501 | the pieces of the `very_pretty` test join to consecutive stretches of its expected string |
| Scenarios.CommentTest | src/xml_writer.rs:505-511 | a comment on a fresh pretty writer is `<!-- comment -->` |

## Left out

- The `io::Write` sink is not modelled, and neither are `write_all` failures with their `?` propagation, `flush` or `into_inner`. Every write is an infallible append, so each operation's text is what the sink gains.
- The `Box` around the sink, the `'a` lifetimes and the `Debug` impl (src/xml_writer.rs:33-41) are Rust plumbing. Names are plain strings.
- UTF-8 encoding in `write_slice` and `encode_utf8` (src/xml_writer.rs:313, 347-350) is not modelled. Output is a sequence of characters.
- A panicking call is not modelled: every panic is a precondition. Nothing is lost by this. `attr`, `attr_esc` and `ns_decl` check before they write. A start tag is pending only inside an open element (`Behaviour.EmptyStackNothingPending`), so `end_elem` on an empty stack panics without writing.
- The unit tests' `flush` and `println!` calls are left out. They do not change the document.
- src/lib.rs, a module re-export, is not part of this model.
