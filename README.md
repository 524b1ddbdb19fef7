# lomse internal model and line tables, in Dafny

This project models the parts of the lomse music-score engine whose logic is
fully present in two files, and proves properties about them:

- `src/internal_model/lomse_internal_model.cpp`:
  - the LDP token decoders: `to_step`, `to_octave`, `to_accidentals`,
    `to_note_type`, `ldp_pitch_to_components`, `ldp_duration_to_components`;
  - note durations with dots (`to_duration`) and time-signature beat and
    measure durations;
  - the hex colour parser of `ImoColorDto`;
  - the beam-segment decoder and the start/end-of-beam predicates of
    `ImoBeamDto` and `ImoBeamData`;
  - the priority-ordered attachment list (`ImoAttachments`);
  - the (staff object, relation data) pair list of `ImoRelObj`;
  - staff-info replacement in `ImoInstrument`;
  - the named score options of `ImoScore`, with their default table.
- `include/lomse_system_layouter.h`: the inline bodies of `LineEntry`,
  `LineTable` and `ColumnStorage`, and the timed / non-timed tests of
  `LineSpacer` and `TimeGridLineExplorer`.

Modules, one file each:
- `LdpNotation` (`ldp_notation.dfy`): decoders and durations.
- `ColorDto` (`color_dto.dfy`).
- `Beams` (`beams.dfy`).
- `Attachments` (`attachments.dfy`): attachments and relation pairs.
- `Instruments` (`instrument.dfy`).
- `ScoreOptions` (`score_options.dfy`).
- `LineTables` (`line_tables.dfy`).
- `Wrappers` (`wrappers.dfy`) holds `Option`.

How the C++ maps to Dafny:
- Objects whose fields the C++ updates in place are classes with `modifies`
  frames. Each state-changing method is proved either against a
  specification function, with the promised properties as lemmas about
  that function, or by an ensures that gives the new value of every
  field it writes.
- `std::list` and `std::vector` members are `seq` fields. An iterator is an
  index, and `end()` is the length.
- Fixed C arrays (`m_beamType[6]`, `m_repeat[6]`) are Dafny arrays.
- Pointers whose identity matters (staff objects, relation data) are
  identifiers.
- Results that use `-1` or `NULL` as "none" return `Option`. A relation
  pair's data pointer may itself be NULL (`include_in_relation` pushes the
  pair before it tests the pointer), so a pair holds an
  `Option<RelDataRef>`. `get_data_for` returns `None` both when no pair
  matches and when the first matching pair holds NULL data, as the C++
  does.
- A `std::string` is a Dafny `string` holding one character per byte of
  the C++ string. Lengths and indices are byte counts, as in the source.
  The model does not read strings as Unicode text.
- `float` durations and logical units (`LUnits`) are `real`. Every duration
  the source computes is dyadic, so it is exact in `float`.

Some enumerations come from headers that are not part of this model:
- The steps, accidentals, beam types and the object types that have an
  attachment priority are datatypes.
- Note types are the integers 0..10 listed in the comment table at
  `src/internal_model/lomse_internal_model.cpp:2634-2644`.
- `k_spacing_proportional` is taken to be 1.

## Model

| member | source | states |
|---|---|---|
| `LdpNotation.ToStep` | src/internal_model/lomse_internal_model.cpp:2557-2570 | a step is decoded exactly for 'a'..'g', and the step's letter is the input |
| `LdpNotation.ToOctave` | src/internal_model/lomse_internal_model.cpp:2573-2589 | an octave is decoded exactly for '0'..'9'; it is at most 9 and spells back to the digit |
| `LdpNotation.ToAccidentals` | src/internal_model/lomse_internal_model.cpp:2592-2627 | decoding succeeds exactly on "", "+", "-", "=", "x", "++", "--", "=-" and the result spells back to the input |
| `LdpNotation.ToNoteType` | src/internal_model/lomse_internal_model.cpp:2630-2662 | a note type is decoded exactly for the letters l b w h q e s t i o f, and its letter is the input |
| `LdpNotation.LettersRoundTrip` | src/internal_model/lomse_internal_model.cpp:2557-2662 | each of the four letter decoders inverts its spelling |
| `LdpNotation.LdpPitchToComponents` | src/internal_model/lomse_internal_model.cpp:2665-2703 | on success step, octave and accidentals are all set (partial writes on the error paths are kept) |
| `LdpNotation.PitchRoundTrip` | src/internal_model/lomse_internal_model.cpp:2665-2703 | every spelled pitch (accidentals, step, octave 0..9) decodes to its own components without error |
| `LdpNotation.PitchDecodeComplete` | src/internal_model/lomse_internal_model.cpp:2665-2703 | a pitch that decodes without error is the spelling of the decoded components |
| `LdpNotation.PitchErrors` | src/internal_model/lomse_internal_model.cpp:2680-2702 | error iff length 1, last character not a digit, second-last not 'a'..'g', or a prefix that is not an accidental spelling; length 1 writes nothing |
| `LdpNotation.CountDots` | src/internal_model/lomse_internal_model.cpp:2720-2728 | the dot loop succeeds iff every character is '.', and then counts all of them |
| `LdpNotation.LdpDurationToComponents` | src/internal_model/lomse_internal_model.cpp:2706-2731 | an unknown note type always comes with zero dots |
| `LdpNotation.DurationRoundTrip` | src/internal_model/lomse_internal_model.cpp:2706-2731 | a note letter followed by k dots decodes to that note type and k |
| `LdpNotation.DurationErrors` | src/internal_model/lomse_internal_model.cpp:2706-2731 | (unknown, 0) iff the string is empty, the first letter is unknown or a later character is not '.'; otherwise (note type of the first letter, length - 1) |
| `LdpNotation.ToDuration` | src/internal_model/lomse_internal_model.cpp:2734-2778 | every duration lies between a 256th note (1) and a nine-times-dotted longa (below 2048) |
| `LdpNotation.UndottedDuration` | src/internal_model/lomse_internal_model.cpp:2741-2757 | note type k in 0..10 lasts 2^(10-k) units; any other code lasts 64 |
| `LdpNotation.DottedDuration` | src/internal_model/lomse_internal_model.cpp:2759-2777 | n dots (1..9) multiply by 2 - 2^-n; any other dot count leaves the undotted value |
| `LdpNotation.DotAddsHalf` | src/internal_model/lomse_internal_model.cpp:2760-2775 | each further dot, up to nine, adds half of what the previous dot added |
| `LdpNotation.TimeSignature.BeatDuration` | src/internal_model/lomse_internal_model.cpp:2462-2481 | a beat lasts 16, 32, 64, 128 or 256 units, whatever the beat type |
| `LdpNotation.TimeSignature.MeasureDuration` | src/internal_model/lomse_internal_model.cpp:2484-2487 | for beat types 1, 2, 4, 8, 16 a measure times the beat type is beats whole notes; any other beat type counts beats of a quarter note |
| `LdpNotation.MeasureInWholeNotes` | src/internal_model/lomse_internal_model.cpp:2462-2487 | a measure lasts beats / beatType whole notes, in terms of to_duration |
| `LdpNotation.CommonMeasures` | src/internal_model/lomse_internal_model.cpp:2462-2487 | 4/4 and 2/2 last a whole note, 3/4 and 6/8 a dotted half, 2/4 a half |
| `LdpNotation.BeatIsUndottedNote` | src/internal_model/lomse_internal_model.cpp:2462-2481 | beat types 1, 2, 4, 8, 16 last a whole, half, quarter, eighth, 16th note (256 / beat type); any other beat type lasts a quarter |
| `ColorDto.DigitValue` | src/internal_model/lomse_internal_model.cpp:739-781 | a character contributes a digit below 16, and 0 when it is not a hex digit |
| `ColorDto.HexValuePrepend` | src/internal_model/lomse_internal_model.cpp:737-783 | the accumulated value is the positional sum: a leading digit adds digit * 16^(number of digits after it) |
| `ColorDto.Hex2RoundTrip` | src/internal_model/lomse_internal_model.cpp:731-786 | the two-digit hex spelling of a byte, in either case, is valid and converts back to that byte |
| `ColorDto.ImoColorDto.constructor` | src/internal_model/lomse_internal_model.cpp:723-728 | the colour is the given components and ok is true |
| `ColorDto.ImoColorDto.ConvertFromHex` | src/internal_model/lomse_internal_model.cpp:731-786 | returns the hex value truncated to 8 bits; ok is cleared iff some character is not a hex digit |
| `ColorDto.ImoColorDto.SetFromRgbString` | src/internal_model/lomse_internal_model.cpp:789-805 | colour and ok after "#rrggbb": the three fields with alpha 255, black with ok false on a bad digit, unchanged without '#' |
| `ColorDto.ImoColorDto.SetFromRgbaString` | src/internal_model/lomse_internal_model.cpp:808-824 | the same for "#rrggbbaa" with four fields |
| `ColorDto.ImoColorDto.SetFromString` | src/internal_model/lomse_internal_model.cpp:827-839 | dispatch on length 7 or 9; any other length gives black with ok false |
| `ColorDto.ColorText` | src/internal_model/lomse_internal_model.cpp:827-839 | the spelling of a colour has length 7 or 9, the two lengths set_from_string accepts |
| `ColorDto.ColorRoundTrip` | src/internal_model/lomse_internal_model.cpp:789-839 | a spelled colour parses back to itself with ok (alpha 255 for the 7-character form) |
| `ColorDto.ColorStringCases` | src/internal_model/lomse_internal_model.cpp:789-839 | the outcome by length, leading '#' and digit validity; failure always leaves black |
| `Beams.StartAndEnd` | src/internal_model/lomse_internal_model.cpp:533-562 | a position is both start and end of beam exactly when its only beams are backward hooks |
| `Beams.SegmentType` | src/internal_model/lomse_internal_model.cpp:617-628 | a recognised segment character never means "no beam" |
| `Beams.ValidPrefix` | src/internal_model/lomse_internal_model.cpp:615-629 | the loop's stopping point: every earlier character is a segment character and the one there is not |
| `Beams.ApplySegments` | src/internal_model/lomse_internal_model.cpp:611-631 | the decoded levels are always six |
| `Beams.SegmentText` | src/internal_model/lomse_internal_model.cpp:611-631 | a spelling of beam levels has one character per level |
| `Beams.SegmentsRoundTrip` | src/internal_model/lomse_internal_model.cpp:611-631 | spelling six non-empty levels and decoding the string gives those levels back, whatever the previous ones |
| `Beams.SegmentTextAt` | src/internal_model/lomse_internal_model.cpp:617-626 | each spelled character decodes to its level's beam type |
| `Beams.ApplySegmentsIdempotent` | src/internal_model/lomse_internal_model.cpp:611-631 | applying the same segment string twice is the same as once |
| `Beams.StartSegmentsStartBeam` | src/internal_model/lomse_internal_model.cpp:611-655 | a non-empty string of '+', 'f', 'b' decoded over empty levels gives a start of beam |
| `Beams.ScanStartOfBeam` | src/internal_model/lomse_internal_model.cpp:533-548 | the flag loop computes: no level is end or continue, and some level is not none |
| `Beams.ScanEndOfBeam` | src/internal_model/lomse_internal_model.cpp:551-562 | the loop computes: no level is begin, forward or continue (all-none is an end) |
| `Beams.ImoBeamDto.constructor` | src/internal_model/lomse_internal_model.cpp:568-579 | beam number 0, six levels of no beam, no repeats |
| `Beams.ImoBeamDto.SetBeamTypeAt` | src/internal_model/lomse_internal_model.cpp:605-608 | only the given level changes |
| `Beams.ImoBeamDto.SetBeamType` | src/internal_model/lomse_internal_model.cpp:611-631 | the levels become the segment decoding of the old levels and the string |
| `Beams.ImoBeamDto.GetBeamType` | src/internal_model/lomse_internal_model.cpp:634-637 | returns the level's beam type |
| `Beams.ImoBeamDto.IsStartOfBeam` | src/internal_model/lomse_internal_model.cpp:640-655 | true iff no level is end or continue and some level is not none |
| `Beams.ImoBeamDto.IsEndOfBeam` | src/internal_model/lomse_internal_model.cpp:658-669 | true iff no level is begin, forward or continue |
| `Beams.ImoBeamData.constructor` | src/internal_model/lomse_internal_model.cpp:521-530 | copies the beam number, the six beam types and the six repeat flags |
| `Beams.ImoBeamData.IsStartOfBeam` | src/internal_model/lomse_internal_model.cpp:533-548 | the same start-of-beam test over the copied levels |
| `Beams.ImoBeamData.IsEndOfBeam` | src/internal_model/lomse_internal_model.cpp:551-562 | the same end-of-beam test over the copied levels |
| `Attachments.GetPriority` | src/internal_model/lomse_internal_model.cpp:913-936 | listed kinds get 0..5, every other kind gets 5000 |
| `Attachments.PriorityOrder` | src/internal_model/lomse_internal_model.cpp:919-935 | tie < beam < chord < tuplet < slur < fermata < any other kind, and the listed kinds have distinct priorities |
| `Attachments.InsertionPoint` | src/internal_model/lomse_internal_model.cpp:898-903 | the scan stops at the first item of higher priority, or at the end |
| `Attachments.AddPosition` | src/internal_model/lomse_internal_model.cpp:893-909 | the insertion position lies within the list |
| `Attachments.Added` | src/internal_model/lomse_internal_model.cpp:889-910 | add makes the list one item longer |
| `Attachments.AddPositionSplits` | src/internal_model/lomse_internal_model.cpp:889-910 | on a sorted list the new item goes after every item of equal or lower priority and before every higher one |
| `Attachments.AddedElements` | src/internal_model/lomse_internal_model.cpp:889-910 | add inserts exactly the new item at that position and keeps all other items in order |
| `Attachments.AddKeepsSorted` | src/internal_model/lomse_internal_model.cpp:889-910 | add keeps a list sorted by priority sorted |
| `Attachments.LowPriorityScanReachesEnd` | src/internal_model/lomse_internal_model.cpp:893-906 | for the unlisted kinds the push_back short cut agrees with the scan |
| `Attachments.RemoveAll` | src/internal_model/lomse_internal_model.cpp:883-886 | after remove the object is absent, and a list without it is unchanged |
| `Attachments.RemoveAllKeepsSorted` | src/internal_model/lomse_internal_model.cpp:883-886 | remove keeps a list ordered by priority ordered |
| `Attachments.RemoveAllCounts` | src/internal_model/lomse_internal_model.cpp:883-886 | remove drops every occurrence and keeps every other item |
| `Attachments.RemoveAllAround` | src/internal_model/lomse_internal_model.cpp:883-886 | removing the only occurrence closes the gap around it |
| `Attachments.AddThenRemove` | src/internal_model/lomse_internal_model.cpp:883-910 | removing a just-added new object restores the list |
| `Attachments.ImoAttachments.constructor` | src/internal_model/lomse_internal_model.cpp:889-892 | a new attachment list is empty and so ordered by rendering priority |
| `Attachments.ImoAttachments.GetNumItems` | src/internal_model/lomse_internal_model.cpp:1055-1072 | the number of attachments, 0 exactly for an empty list (what has_attachments and get_num_attachments read) |
| `Attachments.ImoAttachments.Add` | src/internal_model/lomse_internal_model.cpp:889-910 | the items after the in-place list insertion are the specified add, and the priority order is kept |
| `Attachments.ImoAttachments.GetItem` | src/internal_model/lomse_internal_model.cpp:872-880 | the i-th item for 0 <= i < n, none for i >= n, the first item for a negative index |
| `Attachments.ImoAttachments.FindItemOfType` | src/internal_model/lomse_internal_model.cpp:939-948 | none iff no item has the type; otherwise an item of that type (the first) |
| `Attachments.ImoAttachments.Remove` | src/internal_model/lomse_internal_model.cpp:883-886 | the items after remove are the specified removal, and the priority order is kept |
| `Attachments.FindPair` | src/internal_model/lomse_internal_model.cpp:344-356 | the position of the first pair for the staff object, or none when no pair has it |
| `Attachments.PushThenRemove` | src/internal_model/lomse_internal_model.cpp:338-380 | after pushing a pair for a new staff object it is the first match, get_data_for gives exactly its data (NULL for a NULL pointer), and removing the object restores the list |
| `Attachments.PushKeepsFirstMatch` | src/internal_model/lomse_internal_model.cpp:338-380 | pushing a pair, with or without data, does not change the data found for an object already present or for another object |
| `Attachments.RemoveFirstErasesOne` | src/internal_model/lomse_internal_model.cpp:344-356 | remove erases exactly the first matching pair (one element fewer), and changes nothing when none matches |
| `Attachments.ImoRelObj.constructor` | src/internal_model/lomse_internal_model.cpp:2543-2544 | a new relation object (the base a tuplet is built on) holds no pairs |
| `Attachments.ImoRelObj.PushBack` | src/internal_model/lomse_internal_model.cpp:338-341 | the pair, whose data may be NULL, is appended |
| `Attachments.ImoRelObj.Remove` | src/internal_model/lomse_internal_model.cpp:344-356 | the list after the loop is the specified first-match removal |
| `Attachments.ImoRelObj.GetDataFor` | src/internal_model/lomse_internal_model.cpp:372-380 | the data of the first matching pair; a result exactly when some pair has the staff object and the first such pair holds non-NULL data; a result is always the data of a pair for that object |
| `Instruments.ReplaceOnlyItsStaff` | src/internal_model/lomse_internal_model.cpp:1378-1392 | the number of staves stays; the staff at the info's number becomes the info; the other staves stay; a number past the end changes nothing; replacing again changes nothing |
| `Instruments.ImoInstrument.constructor` | src/internal_model/lomse_internal_model.cpp:1347-1358 | a new instrument has one staff |
| `Instruments.ImoInstrument.AddStaff` | src/internal_model/lomse_internal_model.cpp:1370-1375 | the staff is appended |
| `Instruments.ImoInstrument.ReplaceStaffInfo` | src/internal_model/lomse_internal_model.cpp:1378-1392 | the erase-then-insert gives the specified replacement |
| `ScoreOptions.NewOption` | src/internal_model/lomse_internal_model.cpp:1816-1821 | a new option has the name, the value's type and the value |
| `ScoreOptions.FindOption` | src/internal_model/lomse_internal_model.cpp:1891-1902 | the first option with the name, or none when no option has it |
| `ScoreOptions.UpsertExisting` | src/internal_model/lomse_internal_model.cpp:1807-1861 | a found option keeps its name and type, only its value changes, and the count stays |
| `ScoreOptions.UpsertMissing` | src/internal_model/lomse_internal_model.cpp:1807-1861 | otherwise exactly one option with the name, type and value is appended |
| `ScoreOptions.UpsertThenFind` | src/internal_model/lomse_internal_model.cpp:1807-1902 | after a setter get_option finds the name and reads back the value |
| `ScoreOptions.FindOptionFirst` | src/internal_model/lomse_internal_model.cpp:1891-1902 | the first position holding the name is what get_option finds |
| `ScoreOptions.UpsertKeepsOthers` | src/internal_model/lomse_internal_model.cpp:1807-1861 | a setter does not change what get_option finds for any other name |
| `ScoreOptions.DefaultSpacing` | src/internal_model/lomse_internal_model.cpp:1689-1714 | the default table holds spacing factor 0.547, proportional spacing method and spacing value 15 at their positions |
| `ScoreOptions.ImoScore.constructor` | src/internal_model/lomse_internal_model.cpp:1717-1731 | a new score holds exactly the default options |
| `ScoreOptions.ImoScore.GetOption` | src/internal_model/lomse_internal_model.cpp:1891-1902 | the loop returns the first option with the name |
| `ScoreOptions.ImoScore.SetOption` | src/internal_model/lomse_internal_model.cpp:1807-1861 | the options become the specified update-or-append |
| `ScoreOptions.ImoScore.SetFloatOption` | src/internal_model/lomse_internal_model.cpp:1807-1823 | update-or-append with a float value |
| `ScoreOptions.ImoScore.SetBoolOption` | src/internal_model/lomse_internal_model.cpp:1826-1842 | update-or-append with a boolean value |
| `ScoreOptions.ImoScore.SetLongOption` | src/internal_model/lomse_internal_model.cpp:1845-1861 | update-or-append with a long value |
| `ScoreOptions.ImoScore.SetDefaultsForOptions` | src/internal_model/lomse_internal_model.cpp:1754-1788 | appends the bool, then the long, then the float defaults, in table order |
| `LineTables.LineEntry.constructor` | include/lomse_system_layouter.h:117 | the staff object, shape, prolog flag and time position are the arguments; measurements start at zero |
| `LineTables.LineEntry.GetTotalSize` | include/lomse_system_layouter.h:139 | the total size is shape size + fixed space + variable space |
| `LineTables.LineEntry.GetDuration` | include/lomse_system_layouter.h:143 | the duration is always 0 |
| `LineTables.LineEntry.SetVariableSpace` | include/lomse_system_layouter.h:140 | only the variable space changes; the total size changes by the difference |
| `LineTables.LineEntry.SetFixedSpace` | include/lomse_system_layouter.h:141 | only the fixed space changes; the total size changes by the difference |
| `LineTables.LineEntry.SetSize` | include/lomse_system_layouter.h:142 | only the shape size changes; the total size changes by the difference |
| `LineTables.LineEntry.SetPosition` | include/lomse_system_layouter.h:144 | only the left position changes; the total size stays |
| `LineTables.LineEntry.MarkAsBarlineEntry` | include/lomse_system_layouter.h:145 | the barline flag is set, and marking again changes nothing |
| `LineTables.LineEntry.UpdateXFinal` | include/lomse_system_layouter.h:139-149 | the final position becomes left position + size + fixed + variable space; nothing else changes; idempotent |
| `LineTables.VoiceMatching` | include/lomse_system_layouter.h:219-220 | a line with a voice takes exactly that voice; a line without one takes every voice |
| `LineTables.LineTable.constructor` | include/lomse_system_layouter.h:192 | line, instrument, start position and initial space are the arguments; no entries and no voice |
| `LineTables.LineTable.Size` | include/lomse_system_layouter.h:216 | the number of entries; 0 exactly for an empty line |
| `LineTables.LineTable.IsForLine` | include/lomse_system_layouter.h:217 | true exactly when the line number matches |
| `LineTables.LineTable.IsLineForInstrument` | include/lomse_system_layouter.h:218 | true exactly when the instrument number matches |
| `LineTables.LineTable.Item` | include/lomse_system_layouter.h:198 | the i-th entry; item(0) is front() and the last item is back() |
| `LineTables.LineTable.IsLineForVoice` | include/lomse_system_layouter.h:219 | a line with a voice takes only that voice; a line without one takes every voice |
| `LineTables.LineTable.IsVoicedDefined` | include/lomse_system_layouter.h:220 | false exactly when the line takes every voice; a defined voice rejects some other voice |
| `LineTables.LineTable.GetVoice` | include/lomse_system_layouter.h:223 | the line's voice, which the line always takes |
| `LineTables.LineTable.Front` | include/lomse_system_layouter.h:196 | the first entry |
| `LineTables.LineTable.Back` | include/lomse_system_layouter.h:197-199 | the last entry |
| `LineTables.LineTable.PushBack` | include/lomse_system_layouter.h:207 | the size grows by one, back() is the entry and earlier items are unchanged |
| `LineTables.LineTable.Clear` | include/lomse_system_layouter.h:206 | the size becomes 0 |
| `LineTables.LineTable.SetVoice` | include/lomse_system_layouter.h:219-223 | get_voice gives the new voice, the line takes it, and the voice is defined iff it is not 0 |
| `LineTables.ColumnStorage.constructor` | include/lomse_system_layouter.h:260 | a new storage holds no lines |
| `LineTables.ColumnStorage.Size` | include/lomse_system_layouter.h:284 | the number of lines; 0 exactly for an empty storage |
| `LineTables.ColumnStorage.End` | include/lomse_system_layouter.h:270 | the position just past the last line, which equals size() |
| `LineTables.ColumnStorage.GetLastLine` | include/lomse_system_layouter.h:271-274 | end() stepped back once: the last valid line |
| `LineTables.ColumnStorage.IsEndOfTable` | include/lomse_system_layouter.h:285 | true exactly for end(); never for the position of a line |
| `LineTables.LastLineIsNotEnd` | include/lomse_system_layouter.h:271-285 | the last line is not the end of the table, the position after it is, and it holds the final line |
| `LineTables.TimedClassification` | include/lomse_system_layouter.h:572-577 | before the end a position is timed or non-timed but never both; at the end it is neither |
| `LineTables.LineSpacer.constructor` | include/lomse_system_layouter.h:552 | the spacer works on the given line, with its cursor at the first entry |
| `LineTables.LineSpacer.IsNonTimedObject` | include/lomse_system_layouter.h:572-574 | not at the end and not timed |
| `LineTables.LineSpacer.IsTimedObject` | include/lomse_system_layouter.h:575-577 | not at the end and not non-timed |
| `LineTables.LineSpacer.IsCurrentObjectNonTimed` | include/lomse_system_layouter.h:578 | the non-timed test at the cursor |
| `LineTables.LineSpacer.AreThereMoreObjects` | include/lomse_system_layouter.h:562 | within the line, true exactly when the cursor is at a timed or a non-timed object |
| `LineTables.TimeGridLineExplorer.constructor` | include/lomse_system_layouter.h:702 | the explorer works on the given line, with its cursor at the first entry |
| `LineTables.TimeGridLineExplorer.ThereAreObjects` | include/lomse_system_layouter.h:707 | within the line, true exactly when the cursor is at a timed or a non-timed object |
| `LineTables.TimeGridLineExplorer.IsCurrentObjectNonTimed` | include/lomse_system_layouter.h:713-715 | not at the end and not timed |
| `LineTables.TimeGridLineExplorer.CurrentObjectIsTimed` | include/lomse_system_layouter.h:717-719 | not at the end and not non-timed |
| `LineTables.ExplorerClassification` | include/lomse_system_layouter.h:707-719 | the explorer has objects iff its current object is timed or non-timed, never both |
| `LineTables.SpacerAgreesWithExplorer` | include/lomse_system_layouter.h:562-578 | LineSpacer's tests (h:562-578) and TimeGridLineExplorer's separately written tests (h:707-719) agree on the same line and position |

## Left out

- The layout algorithms (spacing, break points, column splitting and
  resizing, system layout, the time grid) are declared in
  `include/lomse_system_layouter.h` without bodies. Modelling them would
  invent behaviour, so only the records and cursors they work on are here.
- Document-tree machinery is left out because it is memory and ownership
  plumbing or calls into code that is not part of this model. This covers:
  - destructors and `remove_all`;
  - visitors and `dynamic_cast`;
  - `remove_from_all_relations` and relation-data pruning;
  - `ImFactory::inject`;
  - the static type-name map.
- `ImoAttachments` and `ImoRelObj` hold object identities. Deleting the
  pointed-to objects is not modelled.
- `pt_to_LUnits`, `tenths_to_logical`, `set_defaults_for_system_info` and
  float rounding are left out. Durations and widths are exact reals.
- `ImoParamInfo::get_value_as_int` (string streams), `get_midi_table`
  (MIDI) and `get_num_pulses` are left out. `get_num_pulses` depends on
  `is_compound_meter`, which is not part of this model.
- `ImoBeamDto::set_repeat`, `get_repeat` and `get_line_number` are plain
  field accessors or depend on the parser element. The repeat flags are
  modelled only as the array that `ImoBeamData` copies.
- `Attachments.GetPriority`: an `OtherType` is assumed to carry the code of
  a kind outside the six listed ones. The enumeration of codes is not part
  of this model, so nothing rules out an `OtherType` carrying the code of,
  say, a tie. Such a value would get priority 5000 instead of 0.
- The enumeration headers are not part of this model. The numeric codes of
  steps, accidentals, beam types and object types are replaced by datatypes.
  `k_spacing_proportional` is taken as 1.
- `LdpNotation.LdpPitchToComponents`: an empty pitch is excluded by its
  precondition. In the source, `pitch.length() - 1` wraps around as
  `size_t` and the pitch is then indexed far out of range, which is
  undefined behaviour.
- `ColorDto.ImoColorDto.ConvertFromHex`: requires at most 7 characters.
  Up to 7 digits the sum always fits in `int`. From 8 digits on the source
  can hit undefined behaviour:
  - an 8-digit string whose leading digit is 8 or more overflows `int`;
  - 9 or more digits shift past the width of `int`.
  The model does not cover 8-digit strings that would not overflow. The
  colour setters only pass substrings of at most 2 characters.
- `ColorDto.ImoColorDto.SetFromRgbString` and `SetFromRgbaString`:
  - A string that starts with '#' must be long enough for `substr` not to
    throw `std::out_of_range`.
  - An empty string is treated as "no '#'", because its `[0]` is the null
    character.
- The bodies of the `LineEntry` and `LineTable` constructors are not part
  of this model. A new entry starts with zero measurements and no barline
  flag. A new line starts empty with voice 0. The field comment at
  include/lomse_system_layouter.h:187 reads the voice as 1..n, equal to
  the line number plus one; the model still starts at 0, because 0 is
  the "no voice" value that `is_line_for_voice` and `is_voiced_defined`
  test for, and a line is given a voice only by `set_voice`.
- The `LineSpacer` and `TimeGridLineExplorer` constructor bodies are not
  part of this model. Their cursor is taken to start at the first entry
  of the line.
- The default-made `ImoStaffInfo` and `ImoOptionInfo` are not part of this
  model. `ImoInstrument.constructor` and `ImoInstrument.AddStaff` take the
  staff description as a parameter. The unused value slots of a new option
  are taken as false, 0 and 0.0.
- `ScoreOptions.SetValue`: the bodies of `ImoOptionInfo::set_bool_value`,
  `set_long_value` and `set_float_value` are not part of this model. Each
  is taken to write only its own value slot and to leave the option's name
  and type alone.
- `ImoScore::get_instrument`, `ImoInstrument::get_staff` and
  `ImoInstrGroup::get_instrument` are accessors outside the modelled core.
  `get_staff` gives the first staff for a negative index and reads past
  the end of the list for an index of n or more.
  `ImoInstrGroup::get_instrument` gives NULL for a negative index or one
  past n, and reads past the end of the list for an index of exactly n.
  `ImoScore::get_instrument` hands over to `get_child`, which is not part
  of this model.
- The GUI, view, presenter and sample-application files and the compiler
  wrapper are not part of this model.
