# Section headings of the typst document compiler

This project models the section-heading element of typst's standard library
(`library/src/structure/heading.rs`) and proves its behaviour. A `HeadingNode`
holds a nesting `level` (a `NonZeroUsize`, so at least 1) and a `body`. The
file does five things with it:

- **Construction.** The body is a required argument. The level is an optional
  named argument and defaults to 1.
- **Field reflection.** `"level"` gives the level as an integer, `"body"`
  gives the body, and any other name gives nothing.
- **Default show rule.** The body is wrapped in a block.
- **Guard removal.** `unguard_parts` rebuilds the heading with its body
  unguarded and its level unchanged.
- **Default styling.** `finalize` wraps the realized content in a style map.
  The map sets the text size by level (1.4em, 1.2em, then 1.0em), sets the
  weight to bold, and sets strong spacing above (1.8em for level 1, 1.44em
  otherwise) and below (0.66em).

Files:

- `wrappers.dfy`: `Option`, and a `Result` that carries the one error the
  model raises: a missing body. Cast errors are left out.
- `styles.dfy`: style keys and values, with exact em lengths in hundredths of
  an em. `Put` and `Lookup` are the functional meaning of a style map. Setting
  a key that is already present overwrites it in place; setting a new key
  appends it. The `StyleMap` class is the mutable map that `finalize` fills
  in. Its `Set` method is proved against `Put`.
- `heading.dfy`: content is a small tree. Each `Content` packs a node with
  its set of guarded recipe ids. The node kinds are `Text` (any other
  content), `Heading`, `Block` and `Styled`. The heading operations live on
  the `HeadingNode` datatype.

The level is a `NonZeroUsize` on a 64-bit target: `1 <= level < 2^64`.
`field("level")` converts it with `level.get() as i64`. The model writes this
conversion out as a two's-complement wrap (`AsI64`). So the field is at least
1 for every level up to `i64::MAX`, which covers every level an integer
argument can carry. A larger level, which only Rust code could build
directly, reads back negative (`FieldLevelWraps`).

Both spacings are set strong with `VNode::strong` (lines 65-66). The size and
weight carry no strength.

## Model

| member | source | states |
|---|---|---|
| Heading.HeadingNode.Construct | library/src/structure/heading.rs:19-25 | fails with a missing-argument error for `body` exactly when no body is given; otherwise yields an unguarded packed heading holding that body, with level 1 when no level is named and the named level otherwise |
| Heading.ConstructThenField | library/src/structure/heading.rs:19-33 | reading the fields of a constructed heading gives back the body, the level (1 when omitted), and none for every other name, for levels up to `i64::MAX` |
| Heading.HeadingNode.Field | library/src/structure/heading.rs:27-33 | a value exists exactly for `level` and `body`; `level` is `Int` of the level cast to `i64`, `body` is the body |
| Heading.AsI64 | library/src/structure/heading.rs:29 | the cast result lies in the `i64` range, agrees with the input modulo 2^64, and equals the input exactly when the input is at most `i64::MAX` |
| Heading.FieldLevelPositive | library/src/structure/heading.rs:29 | for every level up to `i64::MAX`, `field("level")` is the level itself and so at least 1 |
| Heading.FieldLevelWraps | library/src/structure/heading.rs:29 | a level above `i64::MAX` reads back as a negative integer |
| Heading.HeadingNode.Show | library/src/structure/heading.rs:41-43 | always succeeds, with an unguarded block around the body |
| Heading.ShowIgnoresLevel | library/src/structure/heading.rs:41-43 | two headings with the same body show identically, whatever their levels |
| Heading.HeadingNode.UnguardParts | library/src/structure/heading.rs:37-39 | yields a freshly packed heading with the same level whose body is the body unguarded for `id` |
| Heading.UnguardPartsOnlyBody | library/src/structure/heading.rs:37-39 | (through the stand-in `Unguard`) after unguarding the parts, `id` is guarded nowhere in the result, every other guard of the body survives, and the heading is unchanged once guards are ignored |
| Heading.UnguardGuards | library/src/structure/heading.rs:38 | (of the stand-in `Unguard`) unguarding content removes `id` from the guards of the whole tree and keeps every other guard |
| Heading.UnguardErase | library/src/structure/heading.rs:38 | (of the stand-in `Unguard`) unguarding changes nothing in the content except its guards |
| Heading.UnguardAbsent | library/src/structure/heading.rs:38 | (of the stand-in `Unguard`) content that carries no `id` guard is left exactly as it was |
| Heading.HeadingNode.Finalize | library/src/structure/heading.rs:47-69 | always succeeds with the unchanged realized content wrapped in the default style map for this heading's own level, built by the four sets in source order |
| Heading.DefaultStylesTable | library/src/structure/heading.rs:53-66 | the default map gives text size 1.4em for level 1, 1.2em for level 2 and 1.0em beyond; weight 700 (bold); strong spacing above of 1.8em for level 1 and 1.44em otherwise; strong spacing below of 0.66em for every level |
| Heading.DefaultStylesKeys | library/src/structure/heading.rs:62-66 | the default map holds exactly the four keys text size, text weight, block above and block below, each once |
| Heading.HeadingSizeOrder | library/src/structure/heading.rs:53-57 | the heading text size is non-increasing in the level and always between 1.0em and 1.4em |
| Heading.HeadingAbove | library/src/structure/heading.rs:59-60 | the spacing above is 1.8em exactly for level 1 and 1.44em exactly for every other level |
| Heading.HeadingSize | library/src/structure/heading.rs:53-57 | the text size is 1.4em exactly for level 1, 1.2em exactly for level 2, and 1.0em exactly for level 3 and beyond |
| Heading.DefaultStyles | library/src/structure/heading.rs:62-66 | the map the four sets build has four properties, keyed text size, text weight, block above and block below, in that order |
| Heading.Unguard | library/src/structure/heading.rs:38 | (of the stand-in `Unguard`) removes `id` from the node's own guards, leaves text untouched, keeps a heading's level, and keeps a style scope's properties |
| Styles.StyleMap.constructor | library/src/structure/heading.rs:62 | a new style map is empty |
| Styles.StyleMap.Find | library/src/structure/heading.rs:63-66 | returns the position of the first property with the key, or the map's length when no property has it |
| Styles.StyleMap.Set | library/src/structure/heading.rs:63-66 | the new properties are `Put` of the old ones: the key's property is overwritten in place, or appended when the key was absent |
| Styles.PutAt | library/src/structure/heading.rs:63-66 | `Put` overwrites the first position holding the key, or appends when there is none |
| Styles.PutLookupSame | library/src/structure/heading.rs:63-66 | after a set, looking up the key gives the value just set |
| Styles.PutLookupOther | library/src/structure/heading.rs:63-66 | a set does not change the value of any other key |
| Styles.PutKeys | library/src/structure/heading.rs:63-66 | a set adds exactly its key to the map's key set |
| Styles.PutLength | library/src/structure/heading.rs:63-66 | a set grows the map by one property exactly when the key was not yet present |
| Styles.PutUnique | library/src/structure/heading.rs:63-66 | a set keeps the keys of a map pairwise distinct |

## Left out

- Argument evaluation (`Vm`, `Args::expect`, `Args::named`) and the cast of a named value to `NonZeroUsize` are not part of this model. Construction takes an optional body and an optional level that is already a `NonZeroUsize`. So the type errors a cast can raise, including a level of 0, are not modelled.
- The world and style-chain parameters of `show` and `finalize` are unused in the source, so the model drops them. Style-chain lookup, cascade precedence, strong versus weak resolution, and recipe selection with guard bookkeeping are implemented elsewhere in typst. They are not part of this model.
- `Content::unguard` is defined outside `heading.rs`. The model's stand-in `Unguard` removes the guard from a node and from every node inside it, and it unguards a heading through its own `UnguardParts`. The unguard lemmas are about this stand-in.
- `Content::styled_with_map` and `StyleMap::set` are defined outside `heading.rs`. `StyledWithMap` wraps the content in a style scope, whatever the content already is. `Set` overwrites the first property with the same key or appends a new one.
- `Em` is floating point in the source. The model uses exact hundredths of an em. The conversion of `Em` to a length (`.into()`) is dropped.
- `FontWeight::BOLD` is taken as weight 700. `VNode::strong` is a spacing marked strong.
- The `#[node(Show, Finalize)]` registration and the derived `Debug` and `Hash` are generated code, not modelled.
