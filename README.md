# Markdown enrichment pipeline, modelled in Dafny

DocNexus renders Markdown documents in a browser. The renderer calls a
pipeline of text-to-text passes before the Markdown library sees the text.
A feature registry chooses which passes run, and `run_pipeline` applies them
in order. This project models those passes and proves what they promise.

- **Standard passes** (`docnexus/features/standard.py`):
  - `normalize_headings` turns ATX, setext and implicit title-like headings into canonical `#… text {#slug}` lines. It draws slugs from a per-document counter and leaves fenced code alone.
  - `sanitize_attr_tokens` removes stray `{#id}` and `{id}` tokens from lines that are not headings.
  - `build_toc` numbers the headings as a tree and splices a table-of-contents placeholder into the document.
  - `annotate_blocks` writes one classification marker line before each fenced block.
- **Smart converters** (`omnidoc/features/smart_convert.py`): a rewriter from ASCII tables to pipe tables, a converter from SIP call flows to Mermaid sequence diagrams, and a crude converter from topologies to flowcharts.
- **The context-aware converter** nested in `docnexus/app.py`. It reads the heading before each plain fenced block and, in a fixed priority order, turns the block into a topology flowchart, a SIP ladder diagram (using the `SIP_KNOWLEDGE` table) or a Markdown table.
- **The recent-workspaces update** of `docnexus/app.py`.
- **The feature registry** and **the pipeline runner**.

A document is a `string` (`seq<char>`), and the line-based passes work on the
result of `SplitLines` (Python's `str.splitlines`). Each regular expression is
written out as a hand-made scanner over ASCII characters, with lemmas about
what it matches. Every loop of the imperative passes is a Dafny `method` whose
`ensures` ties its result to a specification function. Four small loops
that only search or count are pure helpers in the source and stay pure
recursive functions here: `get_preceding_heading` (`ContextDetect.NearestHash`
and `ContextDetect.PrecedingHeading`), the response count of
`detect_sip_signaling` (`ContextDetect.ResponsesSeen`), `detect_simple_table`
(`ContextDetect.TableRows`) and `_heading_before` (`SmartSip.LastHeading`). The lemmas state the source's
promises about those functions: round trips, invariants, numbering and
priority.

Layout:
- `text.dfy`: string primitives.
- `slug.dfy`: `_slugify` and `uniq_slug`.
- `heuristics.dfy`: the implicit-heading tests.
- `headings.dfy`: `normalize_headings`.
- `sanitize.dfy`: `sanitize_attr_tokens`.
- `toc.dfy`, `toc_tree.dfy`, `toc_render.dfy`: `build_toc`; `toc_links.dfy`: where its links lead.
- `fences.dfy`: the fence regexes and the splice every fence loop builds.
- `annotate.dfy`: `annotate_blocks`.
- `sip.dfy`: `SIP_KNOWLEDGE`.
- `smart_tables.dfy`, `smart_sip.dfy`, `smart_topology.dfy`: the smart converters.
- `context_detect.dfy`, `context_topology.dfy`, `context_sip.dfy`, `context_table.dfy`, `context.dfy`: the nested converter of `docnexus/app.py`.
- `workspaces.dfy`, `registry.dfy`, `pipeline.dfy`: the recent-workspaces update, the registry and the runner.

## Model

| member | source | states |
|---|---|---|
| Text.Lower | docnexus/features/standard.py:6 | Lower-casing keeps the length and maps each character by itself. |
| Text.Upper | docnexus/app.py:321 | Upper-casing keeps the length and maps each character by itself. |
| Text.Strip | docnexus/features/standard.py:6 | The stripped text is no longer than the input, and it neither starts nor ends with whitespace. |
| Text.LStripSuffix | docnexus/features/standard.py:6 | Left-stripping leaves a suffix of the input, and everything it removes is whitespace. |
| Text.RStripPrefix | docnexus/features/standard.py:168 | Right-stripping leaves a prefix of the input, and everything it removes is whitespace. |
| Text.LStrip | docnexus/features/standard.py:69 | The left-stripped text is no longer than the input and does not start with whitespace. |
| Text.RStrip | docnexus/features/standard.py:168 | The right-stripped text is no longer than the input and does not end with whitespace. |
| Text.StripIdempotent | docnexus/features/standard.py:6 | Stripping twice is stripping once. |
| Text.StripKeepsHead | docnexus/features/standard.py:82 | A text that starts with a non-space character keeps that first character when stripped. |
| Text.Count | docnexus/features/standard.py:393 | The count of non-overlapping occurrences times the pattern's length fits in the text. |
| Text.CountPositiveIffContains | docnexus/features/standard.py:393 | The count is positive exactly when the pattern occurs. |
| Text.FirstBreak | docnexus/features/standard.py:40 | The first line ends at the first line-break character, or at the end of the text. |
| Text.SplitLines | docnexus/features/standard.py:40 | No line produced by `splitlines` contains a line break. |
| Text.SplitLinesOne | docnexus/features/standard.py:40 | A non-empty text without line breaks splits into itself alone. |
| Text.SplitLinesTwo | docnexus/features/standard.py:40 | Two lines joined by `\n`, the second non-empty, split back into those two lines. |
| Text.SplitOn | docnexus/app.py:555 | Splitting on a character always yields at least one piece. |
| Text.WsWords | docnexus/features/standard.py:15 | Splitting at whitespace and dropping empty pieces yields only non-empty words. |
| Text.NatToString | docnexus/features/standard.py:49 | A number's decimal form is a non-empty run of digits. |
| Text.Repeat | docnexus/features/standard.py:87 | Repeating a value n times gives exactly n copies of it. |
| Text.AddName | omnidoc/features/smart_convert.py:134-137 | The name is in the list once it has been added. |
| Text.SplitOnJoin | docnexus/app.py:555 | Joining the pieces of a split with the separator gives the text back. |
| Text.SplitWide | docnexus/app.py:515 | Cutting at runs of two or more whitespace characters always yields at least one piece. |
| Text.NonBlank | omnidoc/features/smart_convert.py:118 | Filtering out blank lines leaves only non-blank lines. |
| Text.AddNameMembers | omnidoc/features/smart_convert.py:134-137 | After adding a name unless it is already present, the list holds the old names and the new one, and nothing else. |
| Text.AddNameDistinct | omnidoc/features/smart_convert.py:134-137 | Adding a name unless it is already present keeps a list free of duplicates. |
| Text.InCodeStep | docnexus/features/standard.py:53-57 | The in-fence flag flips at every fence line and holds otherwise. |
| Slug.KeepSlugCharsFacts | docnexus/features/standard.py:7 | Dropping the characters that are not word characters, whitespace or dashes leaves only kept characters, adds no upper case and is the identity on kept text. |
| Slug.SpacesToDashFacts | docnexus/features/standard.py:8 | After whitespace runs become dashes no whitespace is left, and text without whitespace is unchanged. |
| Slug.CollapseDashesNoDouble | docnexus/features/standard.py:9 | After dash runs collapse no `--` remains. |
| Slug.CollapseDashesId | docnexus/features/standard.py:9 | Text without `--` is unchanged by the collapse. |
| Slug.TrimDashesEdges | docnexus/features/standard.py:10 | After the edge dashes are trimmed, the text neither starts nor ends with `-`. |
| Slug.SlugifyIsSlug | docnexus/features/standard.py:5-11 | A slug has no upper case, no whitespace, no `--` and no leading or trailing `-`, and only word characters and dashes. |
| Slug.SlugifyOfSlug | docnexus/features/standard.py:5-11 | A text that already has the slug shape is its own slug. |
| Slug.SlugifyIdempotent | docnexus/features/standard.py:5-11 | Slugifying twice is slugifying once. |
| Slug.BaseSlug | docnexus/features/standard.py:46 | The base slug, which is `section` when the slug is empty, is a valid anchor id. |
| Slug.SuffixedId | docnexus/features/standard.py:49 | `base-k` is a valid id that extends the base with a dash whenever k is not 1. |
| Slug.UniqSlug | docnexus/features/standard.py:45-49 | Every slug handed out is a valid anchor id. |
| Slug.UniqSlugs | docnexus/features/standard.py:45-49 | Each request gets one slug. |
| Slug.BumpsNumbering | docnexus/features/standard.py:47-49 | Requesting the same base n times gives `base-(c+1)` … `base-(c+n)`, where c is the base's count beforehand. |
| Slug.UniqSlugsRepeated | docnexus/features/standard.py:45-49 | n requests for the same text are n bumps of its base slug. |
| Slug.FreshBaseNumbering | docnexus/features/standard.py:45-49 | For a base that was never used, the first request gets the bare base and the k-th gets `base-k`. |
| Slug.SeededBaseNumbering | docnexus/features/standard.py:47-49 | When the pre-pass has seeded a base once, the next request gets `base-2`. |
| Slug.SlugifyOfA | docnexus/features/standard.py:5-11 | `A` slugifies to `a`. |
| Slug.SlugifyOfA2 | docnexus/features/standard.py:5-11 | `A 2` slugifies to `a-2`. |
| Slug.CollisionStep1 | docnexus/features/standard.py:45-49 | On an empty counter, `A` gets `a` and counts `a` once. |
| Slug.CollisionStep2 | docnexus/features/standard.py:45-49 | With `a` counted once, `A` gets `a-2` and counts `a` twice. |
| Slug.CollisionStep3 | docnexus/features/standard.py:45-49 | With only `a` counted, `A 2` gets the bare `a-2`. |
| Slug.NumberedNameCollides | docnexus/features/standard.py:45-49 | The texts `A`, `A`, `A 2` get `a`, `a-2`, `a-2`: the counter is kept per base, so a numbered name and a base can coincide. |
| Slug.SlugRegistry.Uniq | docnexus/features/standard.py:45-49 | The method returns the slug and updates the counter map exactly as the specification function does, and the slug is a valid id. |
| Heuristics.CapWords | docnexus/features/standard.py:18 | At most every word is counted as capitalised. |
| Heuristics.CapWordsPositive | docnexus/features/standard.py:18 | A positive capital-word count means some word starts with an upper-case letter. |
| Heuristics.AllCapsHasUpper | docnexus/features/standard.py:22-26 | An all-caps text contains an upper-case letter. |
| Heuristics.NumericLevel | docnexus/features/standard.py:29-36 | The numeric heading level is positive exactly when the line starts with an enumerator. |
| Heuristics.Enumerator | docnexus/features/standard.py:30-36 | A recognised enumerator has level at least 1 and ends inside the line. |
| Heuristics.EnumTail | docnexus/features/standard.py:30 | An enumerator match carries the level it was asked for, and whitespace or the end of the line follows it. |
| Heuristics.StripEnumerator | docnexus/features/standard.py:136 | Removing the enumerator never lengthens the line. |
| Heuristics.ListedIn | docnexus/features/standard.py:126-130 | A word is in the stop-word or auxiliary-verb list exactly when it is one of its members. |
| Heuristics.LetterWords | docnexus/features/standard.py:128 | Every word found is non-empty. |
| Heuristics.StopCount | docnexus/features/standard.py:129 | The number of stop words is at most the number of words. |
| Heuristics.ImplicitLevel | docnexus/features/standard.py:133-135 | An implicit heading has level 2 without an enumerator and `min(6, 1 + groups)` with a numeric one. |
| Headings.IdSuffix | docnexus/features/standard.py:58 | A trailing anchor is found only where the line ends in `{#id}` with a valid id. |
| Headings.IdSuffixComplete | docnexus/features/standard.py:58 | Any text ending in `{#id}` with a valid id has its anchor found at that position. |
| Headings.ParseAtx | docnexus/features/standard.py:79-82 | An ATX heading has one to six leading `#` and a valid id when it has one. |
| Headings.ParseAnchored | docnexus/features/standard.py:79-83 | A line of one to six `#`, a space, then the stripped text and `{#id}`, parses to that level, text and id. |
| Headings.HeadingReparses | docnexus/features/standard.py:87 | A canonical heading line parses back to its level, its text and its slug. |
| Headings.ParseAtxStripped | docnexus/features/standard.py:82 | The heading text the parser returns is already stripped. |
| Headings.SeedCovers | docnexus/features/standard.py:51-62 | After the pre-pass, the slug of every ATX heading outside fences has a count of at least 1. |
| Headings.SeedGrows | docnexus/features/standard.py:62 | The pre-pass never lowers a count. |
| Headings.CollectSlugs | docnexus/features/standard.py:51-62 | The pre-pass loop computes the seeded counter map. |
| Headings.Classes | docnexus/features/standard.py:67-143 | There is one decision per input line. |
| Headings.ClassifyOk | docnexus/features/standard.py:67-143 | Each decision respects fences, consumes two lines only for a setext pair, keeps anchored ATX lines and fits within the document. |
| Headings.ClassesValid | docnexus/features/standard.py:67-143 | The decisions of the main loop are valid for every document. |
| Headings.ClassifyKeepsAnchor | docnexus/features/standard.py:83-84 | An ATX line that already ends in `{#id}` is kept as it is. |
| Headings.UnderlineNotFence | docnexus/features/standard.py:91-100 | A setext underline is never a fence line. |
| Headings.NormalizeLines | docnexus/features/standard.py:64-145 | There is one output line per stop of the main loop. |
| Headings.StopsCover | docnexus/features/standard.py:66-143 | The loop's stops lie inside the document, start at 0 and step by one line, or by two over a setext underline. The last stop is the last line or the one before an underline. |
| Headings.NormalizeCovers | docnexus/features/standard.py:66-143 | The main loop visits line 0, then advances by one line or by two over a setext underline, and its last stop is the last line or the one before a final setext underline. So the output has at most as many lines as the input. |
| Headings.NormalizeKeepsCode | docnexus/features/standard.py:69-77 | Fence lines and lines inside fences are emitted unchanged. |
| Headings.NormalizeRewrites | docnexus/features/standard.py:79-140 | A line changes exactly when it is outside fences and promoted to a heading. The new line is a canonical heading with a valid slug at the decided level and text, and anchored ATX lines never change. |
| Headings.NormalizeCounterGrows | docnexus/features/standard.py:45-49 | The main pass never lowers a slug count set by the pre-pass. |
| Headings.SingleHeadingNumbered | docnexus/features/standard.py:51-62 | A lone unanchored ATX heading gets its slug with `-2`, because the pre-pass has already counted it. |
| Headings.LoopStep | docnexus/features/standard.py:67-143 | One iteration writes the decided line, advances the index and the fence flag, and updates the slug registry, as the specification does. |
| Headings.NormalizeLoop | docnexus/features/standard.py:64-145 | The main loop produces the specified output. |
| Headings.Normalize | docnexus/features/standard.py:39-145 | The whole pass (split, pre-pass, main loop, join) equals the specification. |
| Headings.CollisionSeed | docnexus/features/standard.py:51-62 | For an unanchored heading with slug s above one anchored `{#s-2}`, the pre-pass counts s exactly once. |
| Headings.CollisionClasses | docnexus/features/standard.py:79-84 | The unanchored ATX line is promoted and the anchored one kept. |
| Headings.CollisionKinds | docnexus/features/standard.py:66-143 | The main loop stops at both lines, promoting the first and keeping the second. |
| Headings.RenderPair | docnexus/features/standard.py:64-143 | Two stops at lines 0 and 1 write their two decided lines. |
| Headings.AnchorCollision | docnexus/features/standard.py:45-87 | An unanchored heading with slug s above a heading anchored `{#s-2}` is rewritten with `{#s-2}` as well, so two headings carry the same anchor. |
| Headings.ParseHeadingA | docnexus/features/standard.py:79-82 | `# A` is a level-1 ATX heading with text `A` and no anchor. |
| Headings.ParseHeadingB | docnexus/features/standard.py:79-82 | `# B {#a-2}` is a level-1 ATX heading with text `B` and anchor `a-2`. |
| Headings.CollisionHeadingLines | docnexus/features/standard.py:87 | The canonical lines for `A` and `B` with slug `a-2` are `# A {#a-2}` and `# B {#a-2}`. |
| Headings.AnchorCollisionLines | docnexus/features/standard.py:64-143 | The lines `# A`, `# B {#a-2}` become `# A {#a-2}`, `# B {#a-2}`. |
| Headings.AnchorCollisionText | docnexus/features/standard.py:39-145 | The document `# A\n# B {#a-2}` becomes `# A {#a-2}\n# B {#a-2}`. |
| Headings.FenceAlone | docnexus/features/standard.py:69-77 | A lone fence line is copied. |
| Headings.FenceThenBlank | docnexus/features/standard.py:69-77 | A fence line followed by a blank line is copied as it is. |
| Headings.TrailingNewlineLost | docnexus/features/standard.py:39-145 | The pass maps a fence line followed by two line breaks to the fence line followed by one, and that to the bare fence line, so it is not idempotent on the text. |
| Sanitize.TokenEnd | docnexus/features/standard.py:180 | A token match starting at a position ends after it, inside the line. |
| Sanitize.TokenEndIsToken | docnexus/features/standard.py:180 | Where the token scanner reports a match, the text matched is whitespace followed by `{id}` or `{#id}`. |
| Sanitize.ScanFlatten | docnexus/features/standard.py:180 | The scan cuts the line into pieces whose concatenation is the line. |
| Sanitize.ScanPieces | docnexus/features/standard.py:180 | Every piece the scan drops is a token. |
| Sanitize.ScanKept | docnexus/features/standard.py:180 | Every character the scan keeps is a character of the line where no token starts. |
| Sanitize.NoBraceKept | docnexus/features/standard.py:180 | A line without `{` is unchanged. |
| Sanitize.AnchorId | docnexus/features/standard.py:165-167 | The id of an anchored heading is a valid id. |
| Sanitize.CleanHeadingShape | docnexus/features/standard.py:165-168 | A cleaned heading is its text, one space, then `{#id}`, with no trailing whitespace. |
| Sanitize.CleanHeadingIdempotent | docnexus/features/standard.py:165-168 | Cleaning a cleaned heading changes nothing. |
| Sanitize.UnderlineRunPlain | docnexus/features/standard.py:172-176 | A setext underline is neither a fence nor an anchored heading, and token removal leaves it unchanged. |
| Sanitize.SanitizeLines | docnexus/features/standard.py:148-183 | The output has exactly as many lines as the input. |
| Sanitize.SanitizeLinesAt | docnexus/features/standard.py:153-182 | Each output line is the treatment of the input line at the same index: fence and code lines and setext pairs pass, anchored headings are cleaned, and other lines lose their tokens. |
| Sanitize.SanitizeOne | docnexus/features/standard.py:153-182 | Away from a setext pair, the loop emits one line and moves on by one. |
| Sanitize.SanitizePair | docnexus/features/standard.py:172-176 | At a setext pair, the loop emits both lines and moves on by two. |
| Sanitize.SanitizeLoop | docnexus/features/standard.py:149-182 | The loop produces the specified lines. |
| Sanitize.SanitizeText | docnexus/features/standard.py:148-183 | The whole pass equals the specification. |
| Toc.Atx | docnexus/features/standard.py:201-204 | A TOC heading has level 1 to 6. |
| Toc.ScanSound | docnexus/features/standard.py:193-209 | Every collected heading is an ATX line outside fences, with its level and stripped text, and headings appear in document order. |
| Toc.ScanComplete | docnexus/features/standard.py:193-209 | Every ATX line outside fences is collected. |
| Toc.ScanEmpty | docnexus/features/standard.py:211 | No heading is collected exactly when no line outside fences is a heading. |
| Toc.FirstH1Sound | docnexus/features/standard.py:206-207 | The first H1 index is that of the first level-1 heading, and it is absent exactly when there is none. |
| Toc.Anchor | docnexus/features/standard.py:215-219 | Anchoring keeps the number of lines. |
| Toc.AnchorElsewhere | docnexus/features/standard.py:215-219 | Lines that are not headings are unchanged. |
| Toc.AnchorAtHeading | docnexus/features/standard.py:215-219 | Each heading line is rewritten with `{#slug}` unless it already ends in an id. |
| Toc.AnchorOfRewritten | docnexus/features/standard.py:219 | A heading rewritten with its slug then reads back with that slug as its anchor. |
| Toc.AnchorTail | docnexus/features/standard.py:231 | A trailing anchor is found within the text. |
| Toc.DropAnchorTail | docnexus/features/standard.py:231 | Removing the trailing anchor never lengthens the text. |
| Toc.DropOwnAnchor | docnexus/features/standard.py:231 | Removing the trailing anchor from `text {#id}` gives the text back. |
| Toc.NumberPrefix | docnexus/features/standard.py:236 | The enumerator prefix removed from a display text lies within it. |
| Toc.UnwrapOnlyDelimiters | docnexus/features/standard.py:239-244 | Removing Markdown emphasis removes only delimiter characters and keeps everything else in order. |
| Toc.UnmarkPlain | docnexus/features/standard.py:239-244 | Text without emphasis characters is unchanged. |
| Toc.SkipBlank | docnexus/features/standard.py:378-379 | Skipping blank lines moves forward, never past the end. |
| Toc.InsertIndex | docnexus/features/standard.py:374-380 | The insertion index lies within the document. |
| Toc.SkipBlankFacts | docnexus/features/standard.py:378-379 | Skipping blank lines stops at the first non-blank line or at the end. |
| Toc.InsertIndexFacts | docnexus/features/standard.py:374-380 | The TOC goes at the top when there is no H1 or the first H1 is at index 50 or later. Otherwise it goes right after that H1 and any blank lines that follow it. |
| Toc.SpliceFacts | docnexus/features/standard.py:386 | Splicing inserts the placeholder and an empty line at the index and shifts every later line by two. |
| Toc.NoHeadingsUnchanged | docnexus/features/standard.py:211-212 | A document without headings outside fences is returned unchanged. |
| Toc.TocContents | docnexus/features/standard.py:313-364 | The rendered list holds every heading once, in document order. Each heading carries its dotted number, and the `<ol>` tags balance. |
| Toc.NumberingExample | docnexus/features/standard.py:282-310 | Levels 1,2,2,3,2,1,2 are numbered 1, 1.1, 1.2, 1.2.1, 1.3, 2, 2.1. |
| Toc.ScanHeadings | docnexus/features/standard.py:193-209 | The scanning loop collects the specified headings and the first H1. |
| Toc.EnsureIds | docnexus/features/standard.py:215-219 | The anchoring loop produces the specified lines. |
| Toc.TocEntries | docnexus/features/standard.py:229-254 | The node-building loop produces the specified display entries. |
| Toc.FindInsertIndex | docnexus/features/standard.py:374-380 | The insertion loop computes the specified index. |
| Toc.TocPlaceholder | docnexus/features/standard.py:358-384 | The placeholder wraps the specified HTML rows. |
| Toc.BuildToc | docnexus/features/standard.py:186-387 | The whole pass equals the specification. |
| TocLinks.LineId | docnexus/features/standard.py:246 | The id read from a line's trailing `{#id}` is a valid anchor id, and there is one exactly when the line ends in an anchor. |
| TocLinks.EntryOfHeading | docnexus/features/standard.py:229-254 | Every heading with a non-empty display text has an entry with its level, its display text and the anchor read from its line. |
| TocLinks.HeadingCarriesId | docnexus/features/standard.py:215-219 | After anchoring, a heading line carries an id when it already had one or its slug is not empty. |
| TocLinks.AnchorOfLineId | docnexus/features/standard.py:246-247 | The anchor of an entry is the id its line carries, whenever it carries one. |
| TocLinks.SpliceKeeps | docnexus/features/standard.py:386 | Splicing the placeholder and a blank line in keeps every line of the document. |
| TocLinks.AnchoredLineKept | docnexus/features/standard.py:386 | Every anchored line appears in the output document. |
| TocLinks.TocLinksResolve | docnexus/features/standard.py:215-386 | Every entry whose heading had an id or has a non-empty slug links to the id its heading line carries, and that line is in the output. |
| TocLinks.EmptySlugLink | docnexus/features/standard.py:217-247 | `# !!!` has an empty slug and becomes `# !!! {#}`, which carries no id, so its entry links to the empty anchor. |
| TocTree.Pre | docnexus/features/standard.py:259-279 | A forest's preorder lists as many entries as it has nodes. |
| TocTree.BuildPre | docnexus/features/standard.py:259-279 | The preorder of the built tree is the list of headings in document order. |
| TocTree.BuildParents | docnexus/features/standard.py:264-277 | Each heading's parent in the built tree is the nearest earlier heading with a strictly lower level, or none. |
| TocTree.NearestLower | docnexus/features/standard.py:266-267 | The parent candidate lies before the node and has a lower level. |
| TocTree.NearestLowerGap | docnexus/features/standard.py:266-267 | Every heading between the parent and the node has a level at least the node's. |
| TocTree.BuildSpine | docnexus/features/standard.py:262-277 | The rightmost path of the built tree, which is the stack, yields the nearest lower heading for any level. |
| TocTree.InsertAtInsert | docnexus/features/standard.py:266-277 | Popping the stack to the first lower level and pushing attaches the node where the level-based insertion does. The stack levels stay strictly increasing. |
| TocTree.HangStep | docnexus/features/standard.py:264-277 | One step of the stack loop adds the node as a root on an empty stack, or as the last child of the stack top. |
| TocTree.BuildHierarchy | docnexus/features/standard.py:223-279 | The stack loop builds the specified tree. |
| TocTree.CountNode | docnexus/features/standard.py:290-300 | After a node is counted, its level's counter is the number of same-level nodes since the last shallower node, and the counter map still agrees with the document. |
| TocTree.Num | docnexus/features/standard.py:302-306 | Every section number is non-empty. |
| TocTree.Nums | docnexus/features/standard.py:282-310 | Each number is its parent's number, a dot and the counter, or the bare counter for a root. |
| TocTree.NumStep | docnexus/features/standard.py:303-306 | The number written for a node is the specified number. |
| TocTree.AssignNumbers | docnexus/features/standard.py:282-310 | The recursive numbering assigns every node its specified number and keeps the counter map in agreement with the document. |
| TocTree.NumberRoot | docnexus/features/standard.py:288-310 | Numbering one node and its subtree assigns the specified numbers. |
| TocTree.RenumberNums | docnexus/features/standard.py:282-310 | After numbering, the k-th node in preorder carries the k-th specified number. |
| TocTree.RenumberFacts | docnexus/features/standard.py:282-310 | Numbering keeps the tree's shape and its entries. |
| TocTree.BuildPlaced | docnexus/features/standard.py:259-279 | Every node of the built tree sits at its document position below its nearest lower heading. |
| TocRender.Htmls | docnexus/features/standard.py:327-356 | One HTML row per rendered line. |
| TocRender.BuildNestedItems | docnexus/features/standard.py:327-356 | The recursive renderer produces the specified `<ol>`, `<li>`, `</li>` and `</ol>` rows. |
| TocRender.OlContents | docnexus/features/standard.py:327-356 | A rendered list holds its forest's entries in preorder with one `<li>` and one `</li>` per node, and its `<ol>` and `</ol>` tags balance. |
| TocRender.ItemsContents | docnexus/features/standard.py:339-356 | The items of a forest list its entries in preorder with one `<li>` and one `</li>` per node, and their `<ol>` tags balance. |
| TocRender.ItemKind | docnexus/features/standard.py:344-347 | A row is an item exactly when it starts with `<li `. |
| TocRender.OlOpenKind | docnexus/features/standard.py:333 | A row opens a list exactly when it starts with `<ol `. |
| TocRender.LiCloseKind | docnexus/features/standard.py:353 | A row closes an item exactly when it is `</li>`. |
| TocRender.OlCloseKind | docnexus/features/standard.py:355 | A row closes a list exactly when it is `</ol>`. |
| Fences.FindClose | docnexus/features/standard.py:409 | The lazy body ends at the first closing `\n` followed by three backticks. |
| Fences.BodyStart | docnexus/features/standard.py:409 | An opening fence is three backticks, an optional language and a newline. The body starts after that newline, inside the text. |
| Fences.MatchAt | docnexus/features/standard.py:409 | A match starts where it was tried and has a body that ends at a closing fence. |
| Fences.Matches | docnexus/features/standard.py:412 | The matches are well formed, in order, inside the text and not overlapping. |
| Fences.SpliceIdentity | omnidoc/features/smart_convert.py:87-157 | Replacing every match by its own text gives the document back. |
| Fences.SpliceStep | docnexus/app.py:596-610 | One iteration of a fence loop appends the gap and the replacement and moves the cursor to the match's end. |
| Annotate.FlowMatchAt | docnexus/features/standard.py:406 | An arrow match ends after it starts. |
| Annotate.ArrowAfter | docnexus/features/standard.py:406 | An arrow match has `->` after a name of at least two characters. |
| Annotate.LastBoundary | docnexus/features/standard.py:406 | The second name ends at a word boundary. |
| Annotate.AnnotateBlocks | docnexus/features/standard.py:390-433 | The loop produces the specified annotation. |
| Annotate.MarkerLineOneLine | docnexus/features/standard.py:428 | A marker is exactly one line. |
| Annotate.AfterMarker | docnexus/features/standard.py:428-429 | Taking the first line off a marked block gives the block back. |
| Annotate.AnnotateRoundTrip | docnexus/features/standard.py:410-433 | Deleting every inserted marker line restores the input. |
| Annotate.CodeOnlyHasToken | docnexus/features/standard.py:391-393 | A block marked code-only contains one of the code tokens. |
| Annotate.TokenScorePositive | docnexus/features/standard.py:393 | A positive token score means some token occurs. |
| Annotate.SipCandidateHasArrow | docnexus/features/standard.py:398-403 | A SIP candidate contains `->` or `=>`. |
| Annotate.FlowMatchesHaveArrow | docnexus/features/standard.py:405-407 | A text with an arrow match contains `->`. |
| Annotate.FlowchartIsNotTopology | docnexus/features/standard.py:395-407 | A flowchart candidate never passes the topology test, because it contains `->`. |
| SipKnowledge.AnyInIff | docnexus/app.py:296 | `any(w in text)` holds exactly when some listed word occurs. |
| SipKnowledge.CountIn | docnexus/app.py:324 | At most every listed word is counted. |
| SipKnowledge.CountInPositive | docnexus/app.py:324 | The count is positive exactly when some listed word occurs. |
| SipKnowledge.CountInIsPresent | docnexus/app.py:311-312 | For a list without duplicates, the count is the number of distinct listed words present. |
| SmartTables.BlockEnd | omnidoc/features/smart_convert.py:16-19 | A table block runs until the first blank line or line starting with `#`, or until the end. |
| SmartTables.Cells | omnidoc/features/smart_convert.py:21 | A row has as many cells as its stripped text has wide-gap pieces. |
| SmartTables.TablesStepTable | omnidoc/features/smart_convert.py:13-29 | A header line with a wide gap becomes the header row, then the separator, then one row per remaining block line. The pass resumes after the block. |
| SmartTables.TablesStepCopy | omnidoc/features/smart_convert.py:30-31 | Any other line is copied and the pass moves on by one. |
| SmartTables.WideGapColumns | omnidoc/features/smart_convert.py:13-22 | A line with a wide gap always has more than one column, so a detected header always converts. |
| SmartTables.TablesIdentity | omnidoc/features/smart_convert.py:6-32 | Lines without a wide gap are copied unchanged. |
| SmartTables.CollectBlock | omnidoc/features/smart_convert.py:15-19 | The block loop collects exactly the lines up to the block's end. |
| SmartTables.EmitRows | omnidoc/features/smart_convert.py:25-27 | The row loop emits the specified rows. |
| SmartTables.TablesLoop | omnidoc/features/smart_convert.py:9-31 | The outer loop produces the specified lines. |
| SmartTables.ConvertAsciiTables | omnidoc/features/smart_convert.py:6-32 | The whole pass equals the specification. |
| SmartSip.LastHeadingEmpty | omnidoc/features/smart_convert.py:50-53 | No heading is found exactly when no line of the window starts with `#` once stripped. |
| SmartSip.LastHeadingFound | omnidoc/features/smart_convert.py:50-52 | The heading found is the lower-cased stripped text of the last `#` line of the window. |
| SmartSip.EdgeNames | omnidoc/features/smart_convert.py:128 | Both names of an edge are runs of two or more name characters. |
| SmartSip.EdgesNamed | omnidoc/features/smart_convert.py:128-133 | Every edge read from a line has two valid names. |
| SmartSip.ParticipantsNamed | omnidoc/features/smart_convert.py:130-137 | Every participant collected from named edges is a valid name. |
| SmartSip.ParticipantsStep | omnidoc/features/smart_convert.py:130-137 | Each edge adds its source, then its target, when they are new. |
| SmartSip.ParticipantsDistinct | omnidoc/features/smart_convert.py:134-137 | The participant list has no duplicates. |
| SmartSip.ParticipantsExactly | omnidoc/features/smart_convert.py:130-137 | A name is a participant exactly when it is an endpoint of some edge. |
| SmartSip.ParticipantNames | omnidoc/features/smart_convert.py:128-137 | Every participant is a valid name. |
| SmartSip.CollectParticipants | omnidoc/features/smart_convert.py:130-137 | The participant loop produces the specified list. |
| SmartSip.AppendNew | omnidoc/features/smart_convert.py:134-137 | Appending a name when absent matches the specification. |
| SmartSip.MessageLines | omnidoc/features/smart_convert.py:148-152 | There is at most one message line per body line. |
| SmartSip.AppendParticipants | omnidoc/features/smart_convert.py:145-146 | The participant loop appends the specified lines. |
| SmartSip.AppendMessages | omnidoc/features/smart_convert.py:148-152 | The message loop appends the specified lines. |
| SmartSip.BuildSequence | omnidoc/features/smart_convert.py:126-153 | The diagram is the header, the participants, the messages and the closing fence, in that order. |
| SmartSip.ConvertBlock | omnidoc/features/smart_convert.py:89-155 | One iteration of the fence loop, gates included, produces the specified replacement. |
| SmartSip.BuildDiagram | omnidoc/features/smart_convert.py:118-154 | The part after the gates produces the specified diagram or gives up. |
| SmartSip.ConvertSipSignaling | omnidoc/features/smart_convert.py:75-158 | The whole pass equals the specification. |
| SmartSip.ConvertedPassedGates | omnidoc/features/smart_convert.py:93-124 | A block converts only if its language is not skipped and no code-only marker precedes it. A SIP-candidate marker or a signaling heading must precede it, and it must not look like program code. It must also have two arrows, SIP markers and a SIP message line. |
| SmartSip.ConvertedWasSipCandidate | omnidoc/features/smart_convert.py:113 | A block that converts is one `annotate_blocks` marks as a SIP candidate. |
| SmartSip.DiagramParticipants | omnidoc/features/smart_convert.py:126-154 | A converted block names between two and eight distinct participants. It is the header, those participants, the messages and the closing fence. |
| SmartSip.SipRepUnchanged | omnidoc/features/smart_convert.py:94-143 | A block that does not convert is copied unchanged. |
| SmartSip.SipIdentity | omnidoc/features/smart_convert.py:87-158 | When no block converts, the document comes back unchanged. |
| SmartTopology.Words | omnidoc/features/smart_convert.py:174 | Every word found is a run of three or more word characters. |
| SmartTopology.AddAllMembers | omnidoc/features/smart_convert.py:173-175 | After the words are added, the node list holds the old nodes and the new words, and nothing else. |
| SmartTopology.AddAllDistinct | omnidoc/features/smart_convert.py:172-175 | The node collection holds no duplicates, as a set does. |
| SmartTopology.NodeWordsExactly | omnidoc/features/smart_convert.py:169-175 | A word is a node exactly when some non-blank line contains it as a word. |
| SmartTopology.FirstEight | omnidoc/features/smart_convert.py:176 | Keeping eight nodes leaves at most eight distinct nodes, each taken from the collection. |
| SmartTopology.AddWords | omnidoc/features/smart_convert.py:174-175 | The inner loop adds the specified words. |
| SmartTopology.CollectNodes | omnidoc/features/smart_convert.py:173-175 | The outer loop collects the specified nodes. |
| SmartTopology.ConvertTopology | omnidoc/features/smart_convert.py:165-180 | The whole pass equals the specification. It returns the input unless `+---`, `\|` or `---+` occurs and `->` does not. |
| SmartTopology.TopologyNodesShape | omnidoc/features/smart_convert.py:172-176 | The flowchart has at most eight distinct nodes. |
| SmartTopology.TopologyNodeIsWord | omnidoc/features/smart_convert.py:169-176 | Every node is a word of three or more characters from a non-blank line of the input. |
| ContextDetect.NearestHashFound | docnexus/app.py:285-290 | No heading is found exactly when none of the last ten lines starts with `#`, and a found heading starts with `#`. |
| ContextDetect.NearestHashIsLast | docnexus/app.py:287-289 | The heading found is the stripped text of the last `#` line among the ten. |
| ContextDetect.ListsDistinct | docnexus/app.py:308-309 | The box characters and the topology terms are lists without duplicates. |
| ContextDetect.DetectTopologyMeans | docnexus/app.py:304-316 | The topology test holds exactly when at least five distinct box characters are present, and either two distinct topology terms or a dotted-quad address. |
| ContextDetect.QuadAtMeans | docnexus/app.py:313 | The search for a dotted quad succeeds at a position exactly when four digit runs cut by three dots start there. |
| ContextDetect.DigitRunIs | docnexus/app.py:313 | A digit run that ends before a non-digit is the run the scanner measures. |
| ContextDetect.QuadAtParts | docnexus/app.py:313 | A match found at a position is four digit runs cut by three dots. |
| ContextDetect.PartsQuadAt | docnexus/app.py:313 | Four digit runs cut by three dots are a match where they start. |
| ContextDetect.HasIpAddressMeans | docnexus/app.py:313 | The text has an address exactly when some stretch of it is four digit runs cut by three dots. |
| ContextDetect.ResponsesSeen | docnexus/app.py:327-330 | At most every response in the table is counted. |
| ContextDetect.ResponsesSeenPositive | docnexus/app.py:327-330 | The response count is positive exactly when the text shows some response. |
| ContextDetect.ResponsesSeenTwo | docnexus/app.py:327-330 | The response count reaches two exactly when two different responses of the table are shown. |
| ContextDetect.DetectSipNeeds | docnexus/app.py:318-338 | A block detected as signaling has a flow arrow; timing (`T+` in the text or `TIME` in the first line of a non-empty block) or a note corner; and two request methods or two different shown responses. |
| ContextDetect.RowCells | docnexus/app.py:515 | Splitting a line always gives at least one column. |
| ContextDetect.TableRows | docnexus/app.py:513-517 | Only lines with more than one column become rows, and no more rows than lines. |
| ContextDetect.MaxCols | docnexus/app.py:520-522 | The maximum column count bounds every row and is attained by one. |
| ContextDetect.MinCols | docnexus/app.py:520-522 | The minimum column count is below every row and is attained by one. |
| ContextDetect.SimpleTableShape | docnexus/app.py:511-523 | A simple table has at least two multi-column rows whose column counts differ by at most one. |
| ContextTopology.ParenTail | docnexus/app.py:346-347 | The parenthesised details end at a `)`. |
| ContextTopology.PatAt | docnexus/app.py:345-349 | A pattern match ends after it starts, inside the text. |
| ContextTopology.Finditer | docnexus/app.py:355 | The matches lie inside the text and do not go backwards. |
| ContextTopology.AddMatchWellFormed | docnexus/app.py:357-367 | Each match adds at most one node and keeps the node list free of duplicates, with details only for known nodes. |
| ContextTopology.ExtractWellFormed | docnexus/app.py:351-367 | The extracted nodes are distinct, and only they have details. |
| ContextTopology.AddMatchesWellFormed | docnexus/app.py:356-367 | Processing a run of matches keeps the node table well formed. |
| ContextTopology.NodeDecls | docnexus/app.py:374-380 | There is one declaration per node. |
| ContextTopology.EdgeLines | docnexus/app.py:383-384 | There is one edge line per neighbouring pair. |
| ContextTopology.NodeDeclsAt | docnexus/app.py:374-380 | The i-th declaration is that of node i. |
| ContextTopology.EdgeLinesAt | docnexus/app.py:383-384 | The i-th edge joins node i to node i+1. |
| ContextTopology.FlowchartShape | docnexus/app.py:370-390 | A diagram of n nodes is the two header lines, n declarations in first-seen order, exactly n-1 edges from `N{i}` to `N{i+1}`, the style line and the closing fence. |
| ContextTopology.DiagramNeedsTwoNodes | docnexus/app.py:369-392 | No diagram is produced exactly when fewer than two distinct names are found. |
| ContextTopology.AddAllMatches | docnexus/app.py:356-367 | The match loop updates the node table as specified. |
| ContextTopology.DeclareNodes | docnexus/app.py:374-380 | The declaration loop appends the specified lines. |
| ContextTopology.ChainEdges | docnexus/app.py:383-384 | The edge loop appends the specified lines. |
| ContextTopology.ConvertTopology | docnexus/app.py:340-392 | The converter produces the specified diagram or none. |
| ContextSip.HeaderNames | docnexus/app.py:404 | The kept header names are non-empty, and there are no more of them than columns. |
| ContextSip.RemoveParens | docnexus/app.py:410 | Removing parenthesised parts never lengthens a name. |
| ContextSip.RemoveParensPlain | docnexus/app.py:410 | A name without `(` is unchanged. |
| ContextSip.CleanNames | docnexus/app.py:408-412 | Cleaning never adds names. |
| ContextSip.ParticipantsShape | docnexus/app.py:396-417 | There are two to five participants: the first five clean header names, or the default UAC, Router1, Router2, UAS when there are fewer than two. |
| ContextSip.SafeName | docnexus/app.py:424 | The safe name keeps the length and replaces each character that is not a word character by `_`. |
| ContextSip.ParticipantDecls | docnexus/app.py:423-425 | There is one declaration per participant. |
| ContextSip.TimeOf | docnexus/app.py:434-436 | A time stamp starts the line with `T+` and a digit and is at least four characters long. |
| ContextSip.FirstInSpec | docnexus/app.py:443-448 | The search returns a listed word that occurs, and it finds none exactly when none occurs. |
| ContextSip.FirstResponseSpec | docnexus/app.py:452-457 | The search returns a listed response the line shows, and it finds none exactly when the line shows none. |
| ContextSip.RequestNamesMethod | docnexus/app.py:443-448 | A request line's message starts with the first method the line contains, stamped with the time when there is one. |
| ContextSip.DropNoteMarks | docnexus/app.py:500 | Removing the note marks never lengthens the line. |
| ContextSip.LineEmit | docnexus/app.py:439-506 | A line is a request exactly when it has a right arrow, and a reply exactly when it has a left arrow and no right arrow. A note is longer than 3 and at most 50 characters. |
| ContextSip.Step | docnexus/app.py:429-506 | Each body line adds at most one diagram line. |
| ContextSip.StepRequest | docnexus/app.py:465-470 | A right-arrow line adds exactly one message, from the first participant to the second. |
| ContextSip.StepReply | docnexus/app.py:491-496 | A left-arrow line adds exactly one message, from the last participant to the one before it. |
| ContextSip.StepRule | docnexus/app.py:430-431 | A line starting with `---` adds nothing and leaves the time unchanged. |
| ContextSip.FlowOf | docnexus/app.py:428-506 | The message loop emits at most one line per body line. |
| ContextSip.DiagramLines | docnexus/app.py:420-508 | The diagram has at most the header, one line per participant, one line per body line and the closing fence. |
| ContextSip.FindHeader | docnexus/app.py:400-405 | The header loop finds the specified names. |
| ContextSip.Clean | docnexus/app.py:408-412 | The cleaning loop produces the specified names. |
| ContextSip.ChooseParticipants | docnexus/app.py:396-417 | The participant code produces the specified list. |
| ContextSip.DeclareParticipants | docnexus/app.py:423-425 | The declaration loop appends the specified lines. |
| ContextSip.FindFirst | docnexus/app.py:443-448 | The method loop finds the specified method. |
| ContextSip.FindResponse | docnexus/app.py:452-457 | The response loop finds the specified response. |
| ContextSip.FindAttr | docnexus/app.py:460-463 | The SDP attribute loop finds the specified attribute. |
| ContextSip.BuildRequest | docnexus/app.py:440-463 | The request message is built as specified. |
| ContextSip.BuildReply | docnexus/app.py:474-489 | The reply message is built as specified. |
| ContextSip.EmitLine | docnexus/app.py:438-506 | The branch chain decides as specified. |
| ContextSip.StepLine | docnexus/app.py:429-506 | One pass of the message loop matches the specification. |
| ContextSip.FlowLoop | docnexus/app.py:428-506 | The message loop appends the specified lines. |
| ContextSip.ConvertSip | docnexus/app.py:394-509 | The converter produces the specified diagram. |
| ContextTable.Pad | docnexus/app.py:538-539 | Padding keeps the row's cells and adds empty ones up to the width. |
| ContextTable.RowLines | docnexus/app.py:546-549 | There is one line per data row. |
| ContextTable.RowLinesAt | docnexus/app.py:546-549 | The k-th data line is the k-th row padded to the width. |
| ContextTable.PaddedWidth | docnexus/app.py:533-549 | Every padded row has exactly the maximum column count. |
| ContextTable.TableShape | docnexus/app.py:525-551 | The table is the padded header, a separator with one `---` per column, then each padded data row. |
| ContextTable.CollectRows | docnexus/app.py:527-531 | The row loop collects the specified rows. |
| ContextTable.PadRow | docnexus/app.py:538-539 | The padding loop produces the specified row. |
| ContextTable.ConvertTable | docnexus/app.py:525-551 | The converter produces the specified table. |
| Context.BlockLines | docnexus/app.py:555 | A block always has at least one line. |
| Context.OneLineKept | docnexus/app.py:557-558 | A block whose stripped body has no newline is kept. |
| Context.TopologyFirst | docnexus/app.py:564-568 | When the heading suggests topology and a diagram comes out, the topology diagram wins. |
| Context.TopologyHeadingBlocksSip | docnexus/app.py:560-587 | Under a topology-only heading, a block whose topology conversion fails can only become a table. |
| Context.ConvertedShape | docnexus/app.py:560-590 | A converted block is either a Mermaid block or a pipe table, framed by newlines. |
| Context.FlowchartHead | docnexus/app.py:566-568 | A topology conversion starts with a Mermaid fence. |
| Context.LadderHead | docnexus/app.py:572 | A signaling conversion starts with a Mermaid fence. |
| Context.TableHead | docnexus/app.py:586-587 | A table conversion starts with a pipe row. |
| Context.TopologyBranch | docnexus/app.py:565-568 | The topology branch produces the specified result. |
| Context.SipBranch | docnexus/app.py:571-572 | The signaling branch produces the specified result. |
| Context.GuidedBranch | docnexus/app.py:564-572 | The heading-guided branches produce the specified result. |
| Context.UnguidedBranch | docnexus/app.py:575-583 | The auto-detect branches produce the specified result. |
| Context.TableBranch | docnexus/app.py:586-587 | The table branch produces the specified result. |
| Context.ProcessBlock | docnexus/app.py:553-590 | The block processor follows the priority order of the specification. |
| Context.ReplaceBlock | docnexus/app.py:598-605 | One iteration replaces a block as specified. |
| Context.ConvertAsciiTables | docnexus/app.py:593-612 | The fence loop produces the specified document. |
| Context.KeptBlock | docnexus/app.py:588-590 | A block that does not convert is copied unchanged. |
| Context.KeptDocument | docnexus/app.py:593-612 | When no block converts, the document comes back unchanged. |
| Workspaces.Take | docnexus/app.py:1731 | Truncation keeps at most n entries. |
| Workspaces.RemoveFirstCount | docnexus/app.py:1727-1728 | Removing a present path removes exactly one occurrence. |
| Workspaces.RemoveFirstOthers | docnexus/app.py:1727-1728 | Removing a path leaves other paths' counts alone. |
| Workspaces.OccurrencesIn | docnexus/app.py:1727 | A path occurs a positive number of times exactly when it is in the list. |
| Workspaces.TakeOccurrences | docnexus/app.py:1731 | Truncation never adds occurrences. |
| Workspaces.TouchRecentFront | docnexus/app.py:1723-1731 | After the update the path is first, the list has at most five entries, and the path occurs once when it occurred at most once before. |
| Workspaces.TouchRecentRest | docnexus/app.py:1727-1731 | After the path come the old entries, without the path's first occurrence, cut to four. |
| Workspaces.TouchRecentNoNewRepeats | docnexus/app.py:1727-1731 | No other path gains occurrences. |
| Workspaces.Config.SetActive | docnexus/app.py:1723-1731 | The stored recent list becomes the updated list, starting from an empty one when it was missing. |
| Registry.Handlers | docnexus/features/registry.py:21-28 | The handler list is the features' handlers, in registration order. |
| Registry.FeatureManager.constructor | docnexus/features/registry.py:15-16 | A new manager has no features. |
| Registry.FeatureManager.Register | docnexus/features/registry.py:18-19 | Registering appends exactly one feature at the end, and earlier entries are unchanged. |
| Registry.FeatureManager.BuildPipeline | docnexus/features/registry.py:21-28 | The loop builds the specified selection and changes no feature. |
| Registry.StandardOnly | docnexus/features/registry.py:21-28 | Without experimental features, the pipeline is exactly the handlers of standard features, in order. |
| Registry.AllEnabled | docnexus/features/registry.py:21-28 | With experimental features, the pipeline is every registered handler, in order. |
| Registry.SelectedSubseq | docnexus/features/registry.py:21-28 | The pipeline is an order-preserving subsequence of the registered handlers. |
| Registry.StandardWithinAll | docnexus/features/registry.py:24-27 | The standard pipeline is a subsequence of the experimental one. |
| Pipeline.Run | omnidoc/core/renderer.py:58-62 | The loop computes the left fold of the steps. |
| Pipeline.RunEmpty | omnidoc/core/renderer.py:58-62 | No steps leave the text unchanged. |
| Pipeline.RunSingle | omnidoc/core/renderer.py:59-62 | One step is that step applied. |
| Pipeline.RunSnoc | omnidoc/core/renderer.py:60-61 | Steps apply in list order: a step appended to the list runs last. |
| Pipeline.RunAppend | omnidoc/core/renderer.py:58-62 | Running two lists one after the other is running their concatenation. |

## Left out

- Headings.Normalize: anchors are not guaranteed to be unique. `uniq_slug` counts per base slug, and the pre-pass seeds explicit ids under their own key, so a numbered name can equal an id already present or the base of another heading. Headings.AnchorCollisionText shows `# A\n# B {#a-2}` becoming `# A {#a-2}\n# B {#a-2}`, and Slug.NumberedNameCollides shows `A`, `A`, `A 2` getting `a`, `a-2`, `a-2`.
- Headings.Normalize: the pass is not idempotent on the text, because `splitlines` drops a final line break that `"\n".join` does not restore; Headings.TrailingNewlineLost shows it. Idempotence on the list of lines is not proved.
- Toc.BuildToc: a heading whose slug is empty (`# !!!`) is rewritten as `# !!! {#}`, which carries no valid id, and its TOC entry links to the empty anchor; TocLinks.EmptySlugLink shows it. TocLinks.TocLinksResolve covers every other heading.
- Python's regular-expression engine is not modelled in general. Each pattern the passes use has its own scanner, with lemmas about what it accepts.
- Unicode is not modelled. Whitespace, word characters and case mapping are ASCII, so `\w`, `str.lower`, `str.upper` and `str.isupper` agree with Python only on ASCII text. The box-drawing and arrow characters of `docnexus/app.py` appear as literal characters.
- SmartTopology.ConvertTopology: Python's `set` has no specified iteration order, so the node order is the order in which words are first seen. The lemmas state only what holds in any order: at most eight nodes, distinct, each a word of the input.
- SmartSip.ConvertedPassedGates: the status-code test of `_block_has_sip_markers` uses a pattern without the multiline flag. The model follows the code, so only a code at the very start of the block counts, not a code at the start of any line.
- The Flask routes, configuration loading and saving (`save_config`), logging, file discovery and every other I/O in `docnexus/app.py` are not modelled. For the recent-workspaces update only the list operation is modelled; storing the active workspace and saving the file are left out.
- Word import, link rewriting, PDF and Word export and the tkinter dialog call foreign libraries, so they are left out.
- `render_baseline` in `omnidoc/core/renderer.py` wraps the `markdown` library, so it is left out.
- `docnexus/cli.py`, `run.py`, `setup.py` and the build hook are argument parsing and packaging, so they are left out.
- Registry feature names are not modelled. Handlers are modelled as values of type `string -> string`, because the registry only stores, selects and orders them.
- The passes that `docnexus/app.py` registers by name are not wired into a concrete registry, because the registration code is not part of this model.
- The `SIP_KNOWLEDGE` response table is a list of code and reason pairs in the dictionary's insertion order, which is the order Python iterates. Its call-flow patterns and header names are kept as constants; no operation reads them, in the source or in the model.
