# JANOARG chart and song file codecs

JANOARG stores its charts and song indexes in two plain-text formats:

- **JAC** (`.jac`, one chart) is written by `JACEncoder` and read by `JACDecoder`.
- **JAPS** (`.japs`, a playable song) is written by `JAPSEncoder` and read by `JAPSDecoder`.

Both formats are line based. The decoders read line by line:

- A trimmed line `[NAME]` switches the section.
- A `+ Kind …` line creates an object from space-separated tokens.
- A `$ …` line (JAC only) adds a timestamp to the current storyboard.
- A `Key: value` line sets a field on the current object.
- Any other line is ignored, except under `[VERSION]`, where a number newer than the supported version is rejected.

Any failure is reported with the 1-based number of the line that caused it. The encoders fill a fixed template with the object's fields and one block per list element.

The model also covers the ease directives the chart format names (`Easing.cs`), namely:

- the two enumerations;
- the basic directive and its text;
- the cubic Bézier directive, with its control-point check and its text.

What the model establishes:

- **Decoders.** Each decoder is a `method` with a line loop. It is proved equal to a specification function, which folds a step function over the lines (`LineFold.Fold`). Every step keeps the parser state well formed: the current object and storyboard always designate something that exists.
- **Decoder behaviour.** Lemmas pin down what each kind of line does:
  - the section table;
  - the minimum token counts of each object kind;
  - the field table of each object, and that unknown keys are ignored;
  - the version gate;
  - that indentation is irrelevant;
  - that an error names the first failing line.
- **Encoders.** Each encoder is a `method` whose `+=` loops are proved to build the text of a specification function.
- **Song round trip.** Decoding the text the song encoder writes gives back the song, up to exactly what the format does not carry (`SongRoundTrip.DecodeEncodedSong`).
- **Chart round trip, line by line.** Each record line and each storyboard line the chart encoder writes is read by the decoder as the element it was written from, up to what the line does not carry (module `ChartRecords`). The same holds for the version line and the `Alt Charter` line.
- **Chart round trip, whole.** The chart's text splits into the title and the lines of its sections (`ChartLines.SplitChartText`). Decoding it gives the chart back, with every `Key: value` value trimmed and up to what the format does not carry (`ChartRoundTrip.DecodeEncodedChart`).

Numbers are exact. The model uses:

- `Int32` for the 32-bit signed integers that `int.Parse` accepts;
- `Float`, an exact decimal or NaN or ±Infinity, with one canonical text that `ParseFloat` reads back.

Object references held by the decoders (`currentObject`, `currentStoryboard`, the current lane) become indices into the lists being built.

Where the code and its accompanying description disagree, the model follows the code. In particular:

- A JAC storyboard line is only checked for 6 tokens, but it reads token 6 (the easing). The model fails on a 6-token line with an index error, as the code does.
- The JAC `Hit` error message says "minimum 9", while the check requires 10 tokens. The model checks 10, and the lemma `MinimumTokensTable` records both numbers.
- The JAC decoder reads `IsFake` as `tokens[9] == "_"`, but the encoder writes no such token (token 9 is empty). A hit therefore always reads back as real.
- The JAC encoder writes version 1, and the decoder accepts everything up to version 2.
- The JAC encoder writes `Alt Charter:` followed by two spaces. The decoder trims the value, so the extra space is lost.
- The JAPS encoder writes a space after the cover artist's name. The decoder does not trim, so the name reads back with that space.
- The JAPS encoder writes vectors with two components, which the decoder reads with a zero `z`.
- `BasicEaseDirective.ToString` writes the modes as `I`, `O` and `IO`. These are not the enumeration's names, so the chart decoder cannot read that text back.

## Model

| member | source | states |
|---|---|---|
| Easing.ModeOrdinal | Scripts/Data/ChartInfo/Easing.cs:11-14 | a mode's underlying value is its position in the declaration |
| Easing.FunctionOrdinal | Scripts/Data/ChartInfo/Easing.cs:17-30 | a function's underlying value is its position in the declaration |
| Easing.ParseMode | Scripts/Data/Files/JACDecoder.cs:428 | `Enum.Parse` of a mode succeeds only on a mode's own name, and fails naming the text otherwise |
| Easing.ParseFunction | Scripts/Data/Files/JACDecoder.cs:427 | `Enum.Parse` of a function succeeds only on a function's own name, and fails naming the text otherwise |
| Easing.ParseModeName | Scripts/Data/Files/JACDecoder.cs:428 | every mode's name parses back as that mode |
| Easing.ParseFunctionName | Scripts/Data/Files/JACDecoder.cs:427 | every function's name parses back as that function |
| Easing.NamesAreWords | Scripts/Data/ChartInfo/Easing.cs:11-30 | names are non-empty and hold no space, slash or line break, so each is one token |
| Easing.LinearIgnoresMode | Scripts/Data/ChartInfo/Easing.cs:389-391 | a linear directive's text is `Linear` whatever its mode |
| Easing.BasicToStringShape | Scripts/Data/ChartInfo/Easing.cs:389-394 | a non-linear directive's text is the function name, `/`, and a short mode name `I`/`O`/`IO` |
| Easing.BasicToStringInjective | Scripts/Data/ChartInfo/Easing.cs:393 | two non-linear directives with the same text are the same directive |
| Easing.Validate | Scripts/Data/ChartInfo/Easing.cs:434-438 | a control point is rejected with the range error, or accepted unchanged |
| Easing.ValidateAccepts | Scripts/Data/ChartInfo/Easing.cs:436 | a point is accepted exactly when its x lies in [0, 1] |
| Easing.ValidateIgnoresY | Scripts/Data/ChartInfo/Easing.cs:436-437 | acceptance does not depend on y |
| Easing.NewCubicBezier | Scripts/Data/ChartInfo/Easing.cs:419-427 | construction succeeds exactly when both control points are valid, and then holds them |
| Easing.NewCubicBezierIsConstructible | Scripts/Data/ChartInfo/Easing.cs:419-427 | every successfully built Bézier directive is one the source can hold |
| Easing.DirectiveToString | Scripts/Data/ChartInfo/Easing.cs:522-525 | every Bézier directive has the text `CubicBézier` |
| Easing.BezierNameIsDistinct | Scripts/Data/ChartInfo/Easing.cs:522-525 | no basic directive has the Bézier's text, and that text has no slash |
| Numbers.Wrap32 | Scripts/Data/Files/JACDecoder.cs:457 | the unchecked product of a fraction's numerator and sign wraps: in-range values are kept, others are congruent modulo 2^32 |
| Numbers.FormatInt | Scripts/Data/Files/JACEncoder.cs:222 | an integer is written as an optional minus and decimal digits |
| Numbers.ParseInt | Scripts/Data/Files/JACDecoder.cs:435-438 | only an optional minus and digits are read; any other text fails with a format error, and a value outside 32 bits with an overflow error |
| Numbers.ParseFormatInt | Scripts/Data/Files/JAPSEncoder.cs:98 | every 32-bit integer's text reads back as the integer |
| Numbers.ParseFloat | Scripts/Data/Files/JACDecoder.cs:440-443 | a float is read only from number text |
| Numbers.ParseFormatFloat | Scripts/Data/Files/JAPSEncoder.cs:122-124 | every float's invariant text reads back as the float, including NaN and the infinities |
| Numbers.NormalizeKeepsValue | Scripts/Data/Files/JACDecoder.cs:440-443 | canonicalising a decimal keeps its value |
| Numbers.FormatFloatIsNumberText | Scripts/Data/Files/JAPSEncoder.cs:122-124 | a float's text is number text, so it holds no separator of either format |
| Values.TokenAt | Scripts/Data/Files/JACDecoder.cs:88-93 | indexing a token fails exactly past the end of the line |
| Values.ParseEnum | Scripts/Data/Files/JACDecoder.cs:400-403 | `Enum.Parse` succeeds exactly on a declared name |
| Values.ParseColor | Scripts/Data/Files/JACDecoder.cs:472-479 | a colour is read only from at least four tokens |
| Values.ColorTokens | Scripts/Data/Files/JACEncoder.cs:328-336 | an encoded colour is exactly its four component texts |
| Values.ParseEncodeColor | Scripts/Data/Files/JAPSDecoder.cs:317-324 | a colour the encoder writes reads back as the same colour |
| Values.Vector2Tokens | Scripts/Data/Files/JAPSEncoder.cs:120-125 | an encoded 2-vector is exactly its two component texts |
| Text.AppendAll | Scripts/Data/Files/JAPSEncoder.cs:17-23 | the `result +=` loop builds the blocks one after the other |
| Text.JoinSplit | Scripts/Data/Files/JACDecoder.cs:26 | splitting on a separator and joining again gives the text back |
| Text.SplitLines | Scripts/Data/Files/JAPSDecoder.cs:23 | text built from lines without line breaks splits back into those lines |
| LineFold.FoldFailureIsFirst | Scripts/Data/Files/JACDecoder.cs:386-394 | a failed decode stops at the first failing line, and every earlier line succeeded |
| JACDecoder.ParseVector | Scripts/Data/Files/JACDecoder.cs:465-470 | a vector is read only from at least three tokens |
| JACDecoder.ParseEasing | Scripts/Data/Files/JACDecoder.cs:405-433 | `Linear` reads as linear-In; text without exactly one slash fails; a basic result has the text's own names; every result is constructible |
| JACDecoder.ParseTime | Scripts/Data/Files/JACDecoder.cs:445-463 | a beat is fractional exactly when the text has a slash, and then it has a `b` |
| JACDecoderProperties.FractionBeat | Scripts/Data/Files/JACDecoder.cs:447-459 | for any three integer texts, `whole b num / den` reads as the fraction whose numerator is `num` negated exactly when the text starts with `-`, with 32-bit wrap-around |
| JACDecoderProperties.FractionBeatText | Scripts/Data/Files/JACDecoder.cs:447-459 | a fraction written with invariant integer texts and a numerator of at least zero reads back, its numerator negated exactly when the whole part is negative |
| JACDecoderProperties.NegativeZeroBeat | Scripts/Data/Files/JACDecoder.cs:453 | `-0b1/2` reads as whole part 0 and numerator -1: the sign comes from the text, not the whole part's value |
| JACDecoderProperties.DecimalBeat | Scripts/Data/Files/JACDecoder.cs:462 | without a slash, a beat is the float its text spells with `b` read as the decimal point, and fails as that float fails |
| JACDecoderProperties.DecimalBeatText | Scripts/Data/Files/JACDecoder.cs:462 | any float's invariant text with its point written `b` reads back as that float |
| JACDecoder.Initial | Scripts/Data/Files/JACDecoder.cs:15-18 | the decoder starts well formed, with empty style lists |
| JACDecoder.ApplySection | Scripts/Data/Files/JACDecoder.cs:42-79 | a section switch keeps the state well formed |
| JACDecoder.ParseTimestamp | Scripts/Data/Files/JACDecoder.cs:84-95 | a parsed timestamp needs 7 tokens, has a declared ID, and has a NaN `from` for `_` |
| JACDecoder.ApplyStoryboard | Scripts/Data/Files/JACDecoder.cs:80-102 | a storyboard line keeps the state well formed |
| JACDecoder.ParseHitObject | Scripts/Data/Files/JACDecoder.cs:219-242 | flickable exactly when token 7 starts with `F`, a NaN direction for a bare `F`, fake exactly when token 9 is `_`, and a declared hit type |
| JACDecoder.AppendLaneStep | Scripts/Data/Files/JACDecoder.cs:214-215 | adding a step to a lane only grows the chart: every earlier target still exists |
| JACDecoder.AppendHitObject | Scripts/Data/Files/JACDecoder.cs:238-239 | adding a hit to a lane only grows the chart |
| JACDecoder.ApplyObject | Scripts/Data/Files/JACDecoder.cs:103-246 | an object line keeps the state well formed |
| JACDecoder.SetField | Scripts/Data/Files/JACDecoder.cs:253-371 | setting a field changes no list's shape |
| JACDecoder.ApplyMetadata | Scripts/Data/Files/JACDecoder.cs:247-372 | a metadata line keeps the state well formed |
| JACDecoder.Classify | Scripts/Data/Files/JACDecoder.cs:35-38 | a line is a section header exactly when it starts with `[` and ends with `]` |
| JACDecoder.Step | Scripts/Data/Files/JACDecoder.cs:31-384 | every line keeps the state well formed |
| JACDecoder.Decode | Scripts/Data/Files/JACDecoder.cs:13-398 | the loop over the lines computes the fold of the step function |
| JACDecoderProperties.DecodeErrorPinpointsLine | Scripts/Data/Files/JACDecoder.cs:386-394 | an error names a line number in range and that line's content; every earlier line is read without error, and that line fails with the reported cause |
| JACDecoderProperties.DecodeTextFailure | Scripts/Data/Files/JACDecoder.cs:386-394 | a decoding error is the loop's failure, with the line numbered from one and its content |
| JACDecoderProperties.IndentationIgnored | Scripts/Data/Files/JACDecoder.cs:33 | leading white space never changes what a line does |
| JACDecoderProperties.ClassifyByColon | Scripts/Data/Files/JACDecoder.cs:38 | a line with no marker is metadata exactly when it contains `: ` |
| JACDecoderProperties.StepOnSectionHeader | Scripts/Data/Files/JACDecoder.cs:42-44 | a header line switches to the section between its brackets |
| JACDecoderProperties.StepOnMetadataLine | Scripts/Data/Files/JACDecoder.cs:247-251 | a metadata line is applied as the trimmed line |
| JACDecoderProperties.EmptyLineIsIgnored | Scripts/Data/Files/JACDecoder.cs:373-376 | an empty line changes nothing |
| JACDecoderProperties.PlainLineIsIgnored | Scripts/Data/Files/JACDecoder.cs:373 | outside `[VERSION]`, a line that is no header, token or metadata changes nothing |
| JACDecoderProperties.SectionTable | Scripts/Data/Files/JACDecoder.cs:46-78 | each of the six sections selects its object, and any other name fails naming it |
| JACDecoderProperties.StoryboardPutGet | Scripts/Data/Files/JACDecoder.cs:96 | a storyboard written into a target is the one read from it |
| JACDecoderProperties.StoryboardPutPut | Scripts/Data/Files/JACDecoder.cs:96 | writing a target's storyboard twice keeps the second |
| JACDecoderProperties.StoryboardGetPut | Scripts/Data/Files/JACDecoder.cs:96 | writing back a target's own storyboard changes nothing |
| JACDecoderProperties.StoryboardLineAppends | Scripts/Data/Files/JACDecoder.cs:80-102 | fewer than 6 tokens fail; otherwise the parsed timestamp is appended to the current storyboard and nothing else changes |
| JACDecoderProperties.NoStoryboardWithoutOwner | Scripts/Data/Files/JACDecoder.cs:96 | a storyboard line with no current storyboard fails |
| JACDecoderProperties.ObjectTokenGates | Scripts/Data/Files/JACDecoder.cs:105-244 | an object line fails for fewer than 2 tokens, an unknown kind, or fewer than the kind's minimum |
| JACDecoderProperties.MinimumTokensTable | Scripts/Data/Files/JACDecoder.cs:113-222 | the minimums are 8, 10, 14, 9, 12 and 10; the `Hit` message states 9 |
| JACDecoderProperties.LaneLineOpensLane | Scripts/Data/Files/JACDecoder.cs:173-194 | a lane line appends a lane and makes it the current lane, object and storyboard |
| JACDecoderProperties.StepAndHitStayInLane | Scripts/Data/Files/JACDecoder.cs:195-242 | a step or hit line needs a current lane, appends to it, and keeps it current |
| JACDecoderProperties.MetadataLineRouting | Scripts/Data/Files/JACDecoder.cs:249-253 | a metadata line sets the key before the first `: ` to the trimmed rest on the current object |
| JACDecoderProperties.UnknownKeysIgnored | Scripts/Data/Files/JACDecoder.cs:253-371 | a key the current object does not know changes nothing |
| JACDecoderProperties.IndentedMetadataLine | Scripts/Data/Files/JACDecoder.cs:33-38 | an indented `key: value` line is applied as the bare metadata line |
| JACDecoderProperties.VersionGate | Scripts/Data/Files/JACDecoder.cs:373-383 | under `[VERSION]`, a number above 2 fails and any other number changes nothing |
| JACDecoderProperties.VersionSkipsNonNumbers | Scripts/Data/Files/JACDecoder.cs:377-378 | under `[VERSION]`, text that is no integer is skipped |
| JACDecoderProperties.EasingPair | Scripts/Data/Files/JACDecoder.cs:411-429 | `F/M` reads as the function and mode named, failing on the first unknown name |
| JACDecoderProperties.EasingByName | Scripts/Data/Files/JACDecoder.cs:426-429 | every function/mode name pair reads as that basic directive |
| JACDecoderProperties.ShortModeNamesUnreadable | Scripts/Data/ChartInfo/Easing.cs:393 | a non-linear directive's own text does not read back, failing on the short mode name |
| JACDecoderProperties.BezierNameUnreadable | Scripts/Data/ChartInfo/Easing.cs:524 | the Bézier directive's own text is not a readable easing |
| JACEncoder.OptionalLine | Scripts/Data/Files/JACEncoder.cs:139-209 | an optional field line is written exactly when its `present` flag holds, on a new line ending with the value; the callers pass the source's conditions as that flag |
| JACEncoder.AltCharterLine | Scripts/Data/Files/JACEncoder.cs:55-56 | the `Alt Charter` line is written exactly when the name is not blank, on a new line ending with the name |
| JACEncoder.StoryboardLines | Scripts/Data/Files/JACEncoder.cs:97-114 | one timestamp line per timestamp, in order |
| JACEncoder.EncodeStoryboard | Scripts/Data/Files/JACEncoder.cs:97-114 | the loop builds a line break and a timestamp line per timestamp |
| JACEncoder.StoryboardTextSnoc | Scripts/Data/Files/JACEncoder.cs:110-111 | one more timestamp adds exactly its line at the end |
| JACEncoder.LaneStepBlocks | Scripts/Data/Files/JACEncoder.cs:229-231 | one block per lane step, in order |
| JACEncoder.HitObjectBlocks | Scripts/Data/Files/JACEncoder.cs:239-241 | one block per hit, in order |
| JACEncoder.GroupBlocks | Scripts/Data/Files/JACEncoder.cs:17-23 | one block per group, in order |
| JACEncoder.LaneStyleBlocks | Scripts/Data/Files/JACEncoder.cs:27-33 | one block per lane style, in order |
| JACEncoder.HitStyleBlocks | Scripts/Data/Files/JACEncoder.cs:37-43 | one block per hit style, in order |
| JACEncoder.LaneBlocks | Scripts/Data/Files/JACEncoder.cs:47-53 | one block per lane, in order |
| JACEncoder.Encode | Scripts/Data/Files/JACEncoder.cs:13-90 | the chart's text is the template filled with its storyboards and blocks |
| ChartRecords.EaseToken | Scripts/Data/Files/JACEncoder.cs:292-311 | an encoded constructible ease is one token that reads back as itself (linear as linear-In) |
| ChartRecords.BezierToken | Scripts/Data/Files/JACDecoder.cs:415-423 | an encoded valid Bézier reads back with both control points |
| ChartRecords.FlickToken | Scripts/Data/Files/JACEncoder.cs:277-284 | the flick token starts with `F` exactly for flickable hits, and its tail reads back as the direction |
| ChartRecords.GroupRecordStep | Scripts/Data/Files/JACDecoder.cs:111-126 | a group's encoded record line appends a group with its position and rotation, made current |
| ChartRecords.LaneStyleRecordStep | Scripts/Data/Files/JACDecoder.cs:128-147 | a lane style's encoded record line appends a style with its two colours, made current |
| ChartRecords.HitStyleRecordStep | Scripts/Data/Files/JACDecoder.cs:149-171 | a hit style's encoded record line appends a style with its three colours, made current |
| ChartRecords.LaneRecordStep | Scripts/Data/Files/JACDecoder.cs:173-193 | a lane's encoded record line appends a lane with its position, rotation and style, as the current lane |
| ChartRecords.LaneStepRecordStep | Scripts/Data/Files/JACDecoder.cs:195-217 | a lane step's encoded record line appends every written field to the current lane |
| ChartRecords.HitRecordStep | Scripts/Data/Files/JACDecoder.cs:219-241 | a hit's encoded record line appends every written field to the current lane, as a real hit |
| ChartRecords.TimestampStep | Scripts/Data/Files/JACDecoder.cs:80-96 | an encoded timestamp line appends the timestamp (non-finite `from` as NaN) to the current storyboard |
| ChartRecords.EncodedVersionAccepted | Scripts/Data/Files/JACEncoder.cs:10 | the version number the encoder writes passes the decoder's version gate |
| ChartRecords.AltCharterStep | Scripts/Data/Files/JACEncoder.cs:55-56 | the encoded `Alt Charter:` line sets the alternative charter to the trimmed name |
| ChartLines.ChartTextLines | Scripts/Data/Files/JACEncoder.cs:59-87 | the chart's text is the title followed by the lines of its six sections, each behind a line break |
| ChartLines.SplitChartText | Scripts/Data/Files/JACEncoder.cs:59-87 | when nothing written holds a line break, splitting the chart's text at line breaks gives exactly the title and the lines the encoder writes |
| ChartRoundTrip.ReadKey | Scripts/Data/Files/JACDecoder.cs:247-253 | a `Key: value` line sets the field its key names on the current object to the trimmed value |
| ChartRoundTrip.ReadOptionalLine | Scripts/Data/Files/JACDecoder.cs:247-253 | an optional field line sets its field to the trimmed value when it is written, and nothing is read when it is not |
| ChartRoundTrip.ExtendedAppends | Scripts/Data/Files/JACDecoder.cs:80-96 | appending a storyboard's timestamps line by line is appending them all at once |
| ChartRoundTrip.ReadStoryboard | Scripts/Data/Files/JACEncoder.cs:97-114 | a storyboard's lines append its timestamps, as they read back, to the current storyboard, and change nothing else |
| ChartRoundTrip.ReadGroup | Scripts/Data/Files/JACEncoder.cs:116-129 | a group's lines append the group as it reads back (name and parent trimmed, timestamps appended) and make it current |
| ChartRoundTrip.ReadGroups | Scripts/Data/Files/JACEncoder.cs:15-23 | the groups' blocks append the groups as they read back, in order, and keep the mode and the current lane |
| ChartRoundTrip.ReadLaneStyle | Scripts/Data/Files/JACEncoder.cs:131-170 | a lane style's lines append the style with its colours, each written override trimmed, and its timestamps, and make it current |
| ChartRoundTrip.ReadLaneStyles | Scripts/Data/Files/JACEncoder.cs:25-33 | the lane styles' blocks append the styles as they read back, in order |
| ChartRoundTrip.ReadHitStyle | Scripts/Data/Files/JACEncoder.cs:172-212 | a hit style's lines append the style with its colours, each written override trimmed, and its timestamps, and make it current |
| ChartRoundTrip.ReadHitStyles | Scripts/Data/Files/JACEncoder.cs:35-43 | the hit styles' blocks append the styles as they read back, in order |
| ChartRoundTrip.ReadLaneStep | Scripts/Data/Files/JACEncoder.cs:252-267 | a lane step's lines append the step as it reads back to the current lane and make it current |
| ChartRoundTrip.ReadLaneSteps | Scripts/Data/Files/JACEncoder.cs:225-233 | a lane's steps append, in order, to the current lane |
| ChartRoundTrip.ReadHit | Scripts/Data/Files/JACEncoder.cs:269-290 | a hit's lines append the hit as it reads back to the current lane and make it current |
| ChartRoundTrip.ReadHits | Scripts/Data/Files/JACEncoder.cs:235-243 | a lane's hits append, in order, to the current lane |
| ChartRoundTrip.ReadLane | Scripts/Data/Files/JACEncoder.cs:214-250 | a lane's lines append the lane with its name, parent, timestamps, steps and hits as they read back |
| ChartRoundTrip.ReadLanes | Scripts/Data/Files/JACEncoder.cs:45-53 | the lanes' blocks append the lanes as they read back, in order |
| ChartRoundTrip.ReadPreamble | Scripts/Data/Files/JACEncoder.cs:60-64 | the repository line and the version section leave the chart as it is: the written version passes the gate |
| ChartRoundTrip.ReadMetadata | Scripts/Data/Files/JACEncoder.cs:65-71 | the metadata section sets index, name, charter, level and constant, and the alternative charter when it is not blank, strings trimmed |
| ChartRoundTrip.ReadCamera | Scripts/Data/Files/JACEncoder.cs:72-76 | the camera section sets pivot, rotation and distance and appends the camera's timestamps |
| ChartRoundTrip.ReadGroupsSection | Scripts/Data/Files/JACEncoder.cs:77-79 | the groups section appends the groups as they read back |
| ChartRoundTrip.ReadPalette | Scripts/Data/Files/JACEncoder.cs:80-85 | the palette section sets both colours, appends the palette's timestamps and appends the lane and hit styles as they read back |
| ChartRoundTrip.ReadObjects | Scripts/Data/Files/JACEncoder.cs:86-87 | the objects section appends the lanes as they read back |
| ChartRoundTrip.ReadableIsWritable | Scripts/Data/Files/JACEncoder.cs:59-87 | a chart that can be read back writes no line break inside a line, so its text splits into the encoder's lines |
| ChartRoundTrip.ReadChartLines | Scripts/Data/Files/JACDecoder.cs:31-384 | reading the title and every line of the chart, from the decoder's initial state, gives the chart section by section |
| ChartRoundTrip.DecodeEncodedChart | Scripts/Data/Files/JACDecoder.cs:13-398 | decoding the encoder's text of a chart that can be read back succeeds and gives the chart back, up to trimmed values and what the format does not carry |
| ChartRoundTrip.ExpectedChartTrims | Scripts/Data/Files/JACDecoder.cs:251 | the decoded name, charter and level equal the written ones exactly when neither end is white space; an untrimmed charter makes the decoded chart differ |
| JAPSDecoder.ParseVector | Scripts/Data/Files/JAPSDecoder.cs:308-315 | a vector needs two tokens, and two tokens give a zero z |
| JAPSDecoder.ParseEasing | Scripts/Data/Files/JAPSDecoder.cs:278-291 | text without exactly one slash fails; a result is the pair the text names |
| JAPSDecoder.Initial | Scripts/Data/Files/JAPSDecoder.cs:15-17 | the decoder starts well formed with no BPM stops |
| JAPSDecoder.ApplySection | Scripts/Data/Files/JAPSDecoder.cs:39-73 | a section switch keeps the state well formed |
| JAPSDecoder.ParseStop | Scripts/Data/Files/JAPSDecoder.cs:107-111 | a stop is significant exactly when token 5 is `S` |
| JAPSDecoder.ApplyObject | Scripts/Data/Files/JAPSDecoder.cs:74-130 | an object line keeps the state well formed |
| JAPSDecoder.SetField | Scripts/Data/Files/JAPSDecoder.cs:137-245 | setting a field changes no list's shape |
| JAPSDecoder.ApplyMetadata | Scripts/Data/Files/JAPSDecoder.cs:131-246 | a metadata line keeps the state well formed |
| JAPSDecoder.ApplyTiling | Scripts/Data/Files/JAPSDecoder.cs:247-251 | setting a layer's tiling keeps the state well formed and the current object |
| JAPSDecoder.Classify | Scripts/Data/Files/JAPSDecoder.cs:33-35 | a line is a section header exactly when it starts with `[` and ends with `]` |
| JAPSDecoder.Step | Scripts/Data/Files/JAPSDecoder.cs:28-263 | every line keeps the state well formed |
| JAPSDecoder.Decode | Scripts/Data/Files/JAPSDecoder.cs:13-271 | the loop over the lines computes the fold of the step function |
| JAPSDecoderProperties.DecodeErrorPinpointsLine | Scripts/Data/Files/JAPSDecoder.cs:265-268 | an error names a line number in range and that line's content; every earlier line is read without error, and that line fails with the reported cause |
| JAPSDecoderProperties.DecodeTextFailure | Scripts/Data/Files/JAPSDecoder.cs:265-268 | a decoding error is the loop's failure, with the line numbered from one and its content |
| JAPSDecoderProperties.IndentationIgnored | Scripts/Data/Files/JAPSDecoder.cs:31 | leading white space never changes what a line does |
| JAPSDecoderProperties.ClassifyByColon | Scripts/Data/Files/JAPSDecoder.cs:35 | a line with no marker is metadata exactly when it contains `: ` |
| JAPSDecoderProperties.StepOnSectionHeader | Scripts/Data/Files/JAPSDecoder.cs:39-41 | a header line switches to the section between its brackets |
| JAPSDecoderProperties.StepOnObjectLine | Scripts/Data/Files/JAPSDecoder.cs:74-76 | an object line is applied to its space-separated tokens |
| JAPSDecoderProperties.StepOnMetadataLine | Scripts/Data/Files/JAPSDecoder.cs:131-135 | a metadata line is applied as the trimmed line |
| JAPSDecoderProperties.EmptyLineIsIgnored | Scripts/Data/Files/JAPSDecoder.cs:252-255 | an empty line changes nothing |
| JAPSDecoderProperties.SectionTable | Scripts/Data/Files/JAPSDecoder.cs:43-72 | each of the seven section names selects its object, and any other name fails naming it |
| JAPSDecoderProperties.ObjectLineTable | Scripts/Data/Files/JAPSDecoder.cs:76-129 | a bare `+` fails on the missing kind; `Layer` and `BPM` need 6 tokens and append the parsed element as the current object; `Chart` appends a blank chart; other kinds fail naming the kind |
| JAPSDecoderProperties.LayerFields | Scripts/Data/Files/JAPSDecoder.cs:87-95 | a layer reads scale, position and parallax from tokens 2 to 5 |
| JAPSDecoderProperties.StopFields | Scripts/Data/Files/JAPSDecoder.cs:104-111 | a stop reads offset from token 2, BPM from token 3, signature from token 4 and the flag from token 5 |
| JAPSDecoderProperties.MetadataLineRouting | Scripts/Data/Files/JAPSDecoder.cs:133-137 | a metadata line sets the key before the first `: ` to the untrimmed rest |
| JAPSDecoderProperties.UnknownKeysIgnored | Scripts/Data/Files/JAPSDecoder.cs:137-245 | a key the current object does not know changes nothing |
| JAPSDecoderProperties.IndentedMetadataLine | Scripts/Data/Files/JAPSDecoder.cs:31-35 | an indented `key: value` line is applied as the bare metadata line |
| JAPSDecoderProperties.TilingLine | Scripts/Data/Files/JAPSDecoder.cs:247-251 | an indented `Tiling` line sets the current layer's flag, and elsewhere changes nothing |
| JAPSDecoderProperties.TilingSetsFlag | Scripts/Data/Files/JAPSDecoder.cs:250 | setting tiling changes that layer's flag and nothing else |
| JAPSDecoderProperties.OnlyTilingSetsTiling | Scripts/Data/Files/JAPSDecoder.cs:249 | under a layer, any other plain line changes nothing |
| JAPSDecoderProperties.VersionGate | Scripts/Data/Files/JAPSDecoder.cs:252-262 | under `[VERSION]`, a number above 2 fails and any other number changes nothing |
| JAPSDecoderProperties.VersionSkipsNonNumbers | Scripts/Data/Files/JAPSDecoder.cs:257-258 | under `[VERSION]`, text that is no integer is skipped |
| JAPSDecoderProperties.ParseVectorOfTwo | Scripts/Data/Files/JAPSDecoder.cs:312-314 | two written components read back with a zero z |
| JAPSDecoderProperties.ParseVectorOfThree | Scripts/Data/Files/JAPSDecoder.cs:312-314 | three written components read back as the vector |
| JAPSDecoderProperties.EasingByName | Scripts/Data/Files/JAPSDecoder.cs:278-286 | every function/mode name pair reads back as that pair |
| JAPSEncoder.LayerBlocks | Scripts/Data/Files/JAPSEncoder.cs:17-23 | one block per cover layer, in order |
| JAPSEncoder.StopBlocks | Scripts/Data/Files/JAPSEncoder.cs:25-31 | one block per BPM stop, in order |
| JAPSEncoder.ChartMetaBlocks | Scripts/Data/Files/JAPSEncoder.cs:33-39 | one block per chart, in order |
| JAPSEncoder.Encode | Scripts/Data/Files/JAPSEncoder.cs:12-76 | the song's text is the template filled with its blocks |
| SongLines.SongTextLines | Scripts/Data/Files/JAPSEncoder.cs:41-73 | the song's text is the title followed by the section lines, each ended by a line break |
| SongLines.SplitSongText | Scripts/Data/Files/JAPSEncoder.cs:41-73 | for a song whose strings hold no line break, the text splits into exactly those lines |
| SongRoundTrip.ReadLayer | Scripts/Data/Files/JAPSEncoder.cs:78-88 | a layer's encoded lines append the layer, tiling when written so |
| SongRoundTrip.ReadStop | Scripts/Data/Files/JAPSEncoder.cs:90-101 | a stop's encoded line appends the stop unchanged |
| SongRoundTrip.ReadChart | Scripts/Data/Files/JAPSEncoder.cs:103-118 | a chart's encoded lines append the chart unchanged |
| SongRoundTrip.ReadMetadata | Scripts/Data/Files/JAPSEncoder.cs:47-52 | the metadata section sets the name, artists, genre, location and preview range |
| SongRoundTrip.ReadColors | Scripts/Data/Files/JAPSEncoder.cs:65-67 | the colours section sets both colours |
| SongRoundTrip.ReadCover | Scripts/Data/Files/JAPSEncoder.cs:57-63 | the cover section sets the cover's fields and appends its layers |
| SongRoundTrip.ReadTiming | Scripts/Data/Files/JAPSEncoder.cs:69-70 | the timing section appends the stops in order |
| SongRoundTrip.ReadSong | Scripts/Data/Files/JAPSEncoder.cs:41-73 | reading the song's lines from the initial state gives the expected song |
| SongRoundTrip.DecodeEncodedSong | Scripts/Data/Files/JAPSDecoder.cs:13-271 | decoding an encoded song gives the song back, up to what the format does not carry |

## Left out

- Ease evaluation (`Ease.Get`, the Bézier sampling and Newton iteration) and `Animate` are numeric code with no bearing on the text formats.
- `BeatPosition.ToString` is not part of this model. The chart encoder takes the beat rendering as a parameter, and the round-trip lemmas assume it reads back through `ParseTime`.
- The names of `TimestampIDs` and `HitType` are not part of this model. The decoder takes the declared names as a parameter (`EnumNames`).
- The defaults of `new Chart()`, `new LaneGroup()`, `new PlayableSong()` and the other constructors are not part of this model. The decoders take a blank value per kind as a parameter.
- Floats are exact decimals with one canonical text, plus NaN and the infinities. Single-precision rounding, exponent notation and the other spellings `float.Parse` accepts are not modelled.
- `int.Parse`, and the version gate's `int.TryParse` (`JACDecoder.cs:377`, `JAPSDecoder.cs:257`), are modelled as an optional minus and decimal digits. White space, a plus sign and culture-specific forms are not modelled.
- JACDecoderProperties.VersionSkipsNonNumbers: text with surrounding white space, such as `"3 "`, counts as no integer here and is skipped. `int.TryParse` reads 3 from it, and the source then fails on the newer version.
- JAPSDecoderProperties.VersionSkipsNonNumbers: the same `"3 "` case as for the chart decoder. The model skips the line; the source reads 3 and fails.
- JAPSDecoder.ParseStop: the `BPMStop` constructor is not part of this model. Its two arguments are taken as (bpm, offset), because the encoder writes the offset and then the BPM (`JAPSEncoder.cs:98`) and the decoder passes token 3 and then token 2 (`JAPSDecoder.cs:107`). `JAPSDecoderProperties.StopFields`, `SongRoundTrip.ReadStop` and `SongRoundTrip.DecodeEncodedSong` rest on this reading.
- `StartsWith` and `EndsWith` in the decoders' line classification are culture-sensitive in .NET, where ignorable code points in front of a marker still match. The model compares characters ordinally.
- `Enum.Parse` is modelled on exact names. Numeric strings, case folding and comma-separated flags are not modelled.
- `Debug.Log` in the easing parser is left out.
- Exceptions become error values. The message text is kept only as the line number and the line's content.
- The mutable objects the decoders build are values, and references to them are indices into their lists. Aliasing is therefore not modelled.
- JACEncoder.Encode: the round trip (`ChartRoundTrip.DecodeEncodedChart`) is stated only for charts that can be read back (`ChartRoundTrip.Readable`). These have no line break in any written string, timestamp ids and hit types that are declared names without spaces, beats whose rendering reads back, and eases the source can hold. Every `Key: value` value comes back trimmed (`ChartRoundTrip.ExpectedChartTrims`), so a name with surrounding white space does not come back as written, and one of white space only comes back empty. `IsFake` and the fields the format does not write come from the blank objects, and the palette's style lists start empty.
- `CameraFilters.cs`, `Storage.cs` and `RecentSong.cs` are not part of this model.
