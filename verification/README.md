# Codecs, ciphers and protocols of the TC1 firmware

The firmware ships its own JSON library, two more JSON tools, ciphers and checksums, an MQTT
client, a receiver for network credentials sent over the air, and a driver for a serial flash.
This project is a Dafny model of that code and a proof of what it promises. Where the code
changes things step by step, the model does so too: nodes on the heap, buffers filled through
moving indices, contexts whose fields are updated. Each such method is proved against a
function on values, and the main results are lemmas about those functions, for all inputs and
all runs. `dafny verify dfyconfig.toml` checks everything, with the solver warning about contradictory
assumptions turned on; no proof depends on that option.

## The system

**JSON.** `JsonText` defines the grammar that cJSON accepts, with its error positions, and the
text that it prints. `JsonRoundTrip` proves that printing and parsing undo each other.
`JsonSpelling` defines the documents of RFC 8259 on their own: every way in which they may be
spelled, and what they mean. `SpellingParsed` proves that cJSON reads each of them so,
`SpellingRefused` that a text which departs from the standard at one place is refused at that
place, and `PrintedSpelling` that what cJSON prints is one of them.
`JsonScanner`, `JsonParser` and `JsonPrinter` are the routines themselves, over texts with a
terminator and buffers that the first pass sizes and the second fills; `JsonHeap` has the
doubly linked nodes, the trees they form, and adding, detaching, replacing, copying and
deleting. `JsonUnicode` relates the escapes to UTF-8. `JsonMinify` is the in-place minifier;
`JsonMinifyPrinted` and `JsonMinifyMeaning` prove that it undoes formatting and never changes
what a text means.

`Jsmn` is the tokenizer as a function on values, with the theorem on resuming after an
incomplete text; `JsmnForest` proves that tokens form a forest; `JsmnArray` is jsmn_parse on
its token array. `JsmnLeads` and `SpellingTokens` prove that it accepts every spelled document
with the tokens of the document, and `JsmnStrict` what it refuses. `JsonGenerator` is the bounded
writer and its refinement of an unbounded one, `GeneratedText` says what a well-nested run writes,
and `GeneratedTokens` proves that both the tokenizer and cJSON read it as what was meant.

**Ciphers and checksums.** `AesTables` holds the tables and derives every entry from the
S-box, and the S-box from its definition in GF(2^8). `AesCipher` has the cipher of FIPS 197 and
the proof that the equivalent inverse cipher undoes it; `AesBlock`, `AesKeys` and `AesModes` are
the word-wise code, from the table lookups to CBC in place and padded messages.
`Md5Transform` and `Md5` are the hash, from the 64 steps to messages fed in pieces. `AesVectors`
and `Md5Vectors` prove the examples of the two standards. `Crc` has both CRC-8 routines and the
CRC-16, each against a bit-serial register.

**MQTT.** `MqttCodec` builds and reads packets. `MqttSession` is the subscription state
machine: five slots, messages of the broker, and calls of the application in any order.

**Flash.** `Flash` is the driver's write against a device that programs pages, wraps inside a
page and may be busy or fail.

**Credentials over the air.** `Smnt` collects payloads from multicast and broadcast frames that
come in any order, repeated or not at all.

`Base` has the option type and what all modules on texts share.

## Where the code and its promises part

Each of these is stated as a lemma, with the exact condition wherever there is one to state.

- `JsonMinifyMeaning.MinifyKeepsMeaning`: a text that is a single string literal without its
  closing quote is accepted by the parser, but makes the minifier run past the terminator;
  `JsonMinifyMeaning.UnclosedString` is one. `JsonMinify.MinifiedUnlessOpen` has the condition for
  texts that the parser does not accept.
- `Jsmn.CutIsPartial`: a prefix that ends inside a string, between a backslash and the character
  it escapes, is reported as invalid and not as incomplete; no other prefix of an acceptable text
  is.
- `JsmnForest.StrayBracket`: a closing bracket with nothing to close is an error if and only if
  there is no token yet; later it is passed over like a blank.
- `JsmnForest.SizeIsCount` and `SpellingTokens.LongArrayAccepted`: token sizes are bytes, and are the
  number of children exactly below 256; an array of 256 values looks empty.
- `JsonGenerator.TerminatorLost`: json_start_object and json_start_array can put their bracket
  in the place of the terminator.
- `GeneratedText.DocumentGrows`: a document is written with a comma or a value missing exactly
  when some array holds a value of a type that arrays do not know, an object behind something
  other than an object, or an array behind something other than an array.
- json_set_array_value returns its start error with the opposite sign of
  json_set_object_value; the model keeps both.
- `MqttCodec.LengthFieldIsStandard`: length fields above 16383 are not those of the standard.
- `MqttCodec.PublishRoundTrip`: the offset of a message is kept in eight bits, so the message is
  looked for in its place exactly when it starts below 256, and its id when the topic ends there.
- `MqttCodec.SubscribeRoundTrip`: subscriptions ask for QoS 2.
- `MqttSession.OnePendingKept`: a second acceptance during a login puts a second slot in
  subscription.
- `MqttSession.ReconnectRestores`: a topic that is being unsubscribed when the session closes is
  subscribed again by the next login.
- `Flash.AcceptedInside` and `Flash.WrappedRange`: the range check adds in 32 bits and lets ranges
  through whose sum wraps; exactly these send addresses outside the flash.
- `AesModes.PadText`, `AesModes.AcceptedStaysInside` and `AesModes.BlockLeavesRoom`: for a text that
  fills its blocks, the padding loop of device_aes_encrypt writes sixteen bytes more than it
  returns; and its check of the room comes before the block of padding is added, so that such a
  text is written past the room unless two more blocks fit.
- `Smnt.Deliverable` and `Smnt.SixBlocksAreLost`: frame indices stop at 48, so a payload of more
  than 96 bytes is delivered exactly when its tail is in the buffer before; one of six cipher
  blocks, which the check admits, has 98.
- `Smnt.ChecksumLeavesBuffer`: the checksum is computed before the length is judged, and reads
  behind the buffer exactly for length bytes from 127 to 254. The model gives the buffers one
  block of memory to lie in.
- `Smnt.Receiver.PayloadCheck` and `Smnt.LongestIsAccepted`: a length of 97, and no other, fills one
  byte more than encData declares. The model gives encData that byte.

## Model

| member | source | states |
|---|---|---|
| `JsonRoundTrip.RoundTrip` | example/json/cJSON.c:291-513 | for every tree of null, booleans, 32-bit integers, NUL-free strings, arrays and named members, at every depth and in both formats, parsing the printed text gives the same tree back and stops exactly at its end |
| `JsonRoundTrip.PrintableIsIntegral` | example/json/cJSON.c:121-131 | every tree the round trip is promised for has only numbers that are printed with %d |
| `JsonRoundTrip.StringRoundTrip` | example/json/cJSON.c:159-252 | every NUL-free string, printed as a literal, is read back unchanged, up to the closing quote and no further |
| `JsonRoundTrip.NumberRoundTrip` | example/json/cJSON.c:99-131 | every 32-bit integer, printed with %d, is read back with the same value; what follows must not continue a number |
| `JsonRoundTrip.ArrayRoundTrip` | example/json/cJSON.c:324-408 | the array case: items, separators and the closing bracket are read back in order, none lost |
| `JsonRoundTrip.ObjectRoundTrip` | example/json/cJSON.c:411-513 | the object case: names and values come back in order in spite of the tabs and line breaks, also for the oddly indented empty object |
| `PrintedSpelling.PrintedMeans` | example/json/cJSON.c:121-252 | the document that the printer is said to write, each character spelled in one chosen way and each blank in its place, is one of RFC 8259 and means the tree |
| `PrintedSpelling.PrintIsText` | example/json/cJSON.c:291-513 | what is printed, at every depth and in both formats, is the text of that document |
| `PrintedSpelling.PrintedIsTokenized` | thirdpartylib/JingDong/jsmn/jsmn.c:153-270 | jsmn accepts every printed string, array and object in both formats, to the last character, with the tokens of the document, each over its own text |
| `JsonMinify.Minify` | example/json/cJSON.c:587-602 | the in-place loop turns a terminated text that is not left open in a block comment or a literal into exactly its minified form, sets the new terminator at or before the old one, and touches nothing behind it |
| `JsonMinify.MinifiedUnlessOpen` | example/json/cJSON.c:587-602 | for every text, the routine stays inside it if and only if an automaton that reads it from the left does not end in a block comment or a string literal |
| `JsonMinify.SkipLine` | example/json/cJSON.c:596 | a line comment is skipped to the line break, which stays for the next turn |
| `JsonMinify.SkipComment` | example/json/cJSON.c:597 | a block comment is skipped to behind its first star and slash |
| `JsonMinify.CopyLiteral` | example/json/cJSON.c:598 | a string literal is moved down unchanged, escaped quotes included, while every character not yet read stays as it was |
| `JsonMinify.MinifiedIsKept` | example/json/cJSON.c:587-602 | the minified form of every text that is not left open is the text that an automaton keeps which leaves out exactly the comments, and the spaces, tabs, carriage returns and line feeds outside literals |
| `JsonMinifyPrinted.MinifyUndoesFormat` | example/json/cJSON.c:587-602 | minifying a formatted print gives exactly the unformatted print, for every printable tree at every depth |
| `JsonMinifyMeaning.MinifyKeepsMeaning` | example/json/cJSON.c:587-602 | for every text that the parser accepts as a whole, minification succeeds if and only if the text is not a single unclosed string literal; and then the parser accepts the minified text with the same tree |
| `JsonMinifyMeaning.UnclosedString` | example/json/cJSON.c:587-602 | a quote and a letter are such a literal: parsed as a string, left open for the minifier |
| `JsonUnicode.Utf8Decodes` | example/json/cJSON.c:196-204 | the bytes written for a code point are decoded by the definition of section 4 of RFC 3629 to that code point, with none left over |
| `JsonUnicode.EscapeEmitsUtf8` | example/json/cJSON.c:183-205 | a \u escape or surrogate pair that spells a scalar value other than zero emits its UTF-8 encoding; every other one emits nothing |
| `JsonUnicode.ParsedStringsAreNulFree` | example/json/cJSON.c:180-216 | no string read from a literal contains the terminator, so its C string is the whole of it |
| `SpellingParsed.StringRead` | example/json/cJSON.c:183-216 | every literal in which each character is itself, itself behind a backslash, a short escape, \u with four hexadecimal digits of either case, or a surrogate pair of these, is read as exactly the string it spells, and the rest starts behind the quote |
| `SpellingParsed.NumberRead` | example/json/cJSON.c:99-118 | every number of section 6 of RFC 8259, with fraction and exponent of any length and sign, is read with its value, which is counted digit by digit from the places |
| `SpellingParsed.DocRead` | example/json/cJSON.c:291-470 | every value of RFC 8259, with any blanks between its tokens, is read as what it means, to its last character and no further |
| `SpellingParsed.StandardIsParsed` | example/json/cJSON.c:268-282 | every text of RFC 8259, blanks around it included, is accepted whole with its meaning; what a text means is defined on its spelling without any function of the parser |
| `SpellingRefused.BrokenIsRefused` | example/json/cJSON.c:291-445 | a text that follows RFC 8259 up to one place, at any depth, and has there neither the value, comma, bracket, name, colon nor brace that must come, is refused with the error pointer at that place |
| `SpellingRefused.BrokenIsNotParsed` | example/json/cJSON.c:268-282 | the same for the whole call, with blanks in front |
| `SpellingRefused.MoreBehind` | example/json/cJSON.c:279 | text behind a document is refused where it starts when the whole text must be the document, and is left over otherwise |
| `JsonRoundTrip.SkipIs` | example/json/cJSON.c:265 | skip passes exactly the characters up to code 32 in front of the first that is above, or of the end |
| `JsonScanner.ScanNumber` | example/json/cJSON.c:99-118 | parse_number reads exactly the grammar of sign, digits, fraction and exponent, with the exact value over the reals |
| `JsonScanner.ScanHex4` | example/json/cJSON.c:144-155 | parse_hex4 is the value of four hexadecimal digits, and zero when one of them is not a digit |
| `JsonScanner.RoomSuffices` | example/json/cJSON.c:164-212 | the length counted by the first pass bounds what the second pass writes, for every string whose escapes are complete |
| `JsonScanner.MeasureString` | example/json/cJSON.c:164 | the counting loop, which takes a backslash and its successor as one, computes that length and stays inside the text |
| `JsonScanner.WriteUtf8` | example/json/cJSON.c:196-204 | the fall-through switch, writing backwards, stores the encoding of the code point and no byte beside it |
| `JsonScanner.UnicodeAt` | example/json/cJSON.c:183-205 | one \u escape: what is written and where the pointer stands, for single units, pairs and rejected surrogates |
| `JsonScanner.FillString` | example/json/cJSON.c:169-212 | the second pass writes exactly the unescaped string and stops at the closing quote or the end of the text |
| `JsonScanner.ScanString` | example/json/cJSON.c:159-216 | parse_string fails exactly when there is no opening quote; otherwise the string is in a fresh buffer of the counted size, terminated inside it |
| `JsonScanner.WidthIsExact` | example/json/cJSON.c:224 | the width that the sizing loop of print_string_ptr gives a character is the length of its escape |
| `JsonScanner.MeasureEscapes` | example/json/cJSON.c:224 | the sizing loop computes the exact length of the escaped string |
| `JsonScanner.WriteEscape` | example/json/cJSON.c:236-247 | the escape of a control character, quote or backslash is written whole, with room for the terminator that the conversion adds |
| `JsonScanner.PrintStringPtr` | example/json/cJSON.c:219-252 | the buffer that print_string_ptr allocates has exactly the size of what it writes; without a string it is empty |
| `JsonHeap.Node.constructor` | example/json/cJSON.c:76-82 | a new node has every field zero |
| `JsonHeap.Walk` | example/json/cJSON.c:531-538 | the walk by a counter ends at the node of that index, at the first for negative counters, and at null behind the last |
| `JsonHeap.AddItemToArray` | example/json/cJSON.c:526 | adding appends to the doubly linked chain and keeps it well formed; adding null changes nothing |
| `JsonHeap.DetachItemFromArray` | example/json/cJSON.c:531-532 | detaching removes exactly the node of that index from the chain, keeps the others linked in order both ways, and leaves the node without neighbours; out of range nothing changes |
| `JsonHeap.ReplaceItemInArray` | example/json/cJSON.c:538-540 | replacing puts the new node in the place of the old one, with both neighbours, and cuts the old one loose |
| `JsonHeap.RowWithout` | example/json/cJSON.c:531-532 | when every neighbour skips one node, the remaining chain is well formed |
| `JsonHeap.RowWith` | example/json/cJSON.c:538-540 | when every neighbour points at the new node instead, the changed chain is well formed |
| `JsonHeap.Unlink` | example/json/cJSON.c:531-532 | the pointer assignments of detaching, for first, middle and last nodes |
| `JsonHeap.Exchange` | example/json/cJSON.c:539-540 | the pointer assignments of replacing, for first, middle and last nodes |
| `JsonHeap.EqualIgnoringCase` | example/json/cJSON.c:39-48 | cJSON_strcasecmp finds equality exactly when the strings agree up to the case of ASCII letters; a missing name equals nothing |
| `JsonHeap.SameNameIs` | example/json/cJSON.c:39-48 | two names match exactly when they have the same length and every character is the same or the other case of the same letter of the alphabet |
| `JsonHeap.FindByName` | example/json/cJSON.c:518 | the search returns the first child whose name matches, or null when none does |
| `JsonHeap.DetachItemFromObject` | example/json/cJSON.c:534 | detaching by name removes the first matching child and no other |
| `JsonHeap.HangChild` | example/json/cJSON.c:521-526 | hanging a finished tree on the end of a chain keeps the forest well formed and appends its contents |
| `JsonHeap.Duplicate` | example/json/cJSON.c:560-585 | a recursive copy has the contents of the original on fresh nodes and is itself a well-formed tree; a flat copy has no children |
| `JsonHeap.DuplicateChildren` | example/json/cJSON.c:575-584 | the copies of all children, in order, complete the copy to the contents of the whole original |
| `JsonHeap.CopyChain` | example/json/cJSON.c:575-583 | the loop copies the children one by one onto fresh nodes and hangs each copy behind the last, in order, while the original stays as it is |
| `JsonHeap.Delete` | example/json/cJSON.c:84-97 | every node of the forest is freed exactly once, and nothing else |
| `JsonHeap.DeleteNode` | example/json/cJSON.c:88-96 | one turn of the loop frees the children of a node and then the node |
| `JsonParser.SkipAt` | example/json/cJSON.c:265 | skip stops at the first character above code 32 or at the end |
| `JsonParser.ParseStringInto` | example/json/cJSON.c:159-216 | the string goes into the node; on failure the node is untouched and the error position is the start of the string |
| `JsonParser.ParseNumberInto` | example/json/cJSON.c:99-118 | the value goes into both fields, and they agree whenever the value is a 32-bit integer |
| `JsonParser.ParseValueAt` | example/json/cJSON.c:291-303 | parse_value builds a well-formed tree with the value that the grammar gives, and stops where the grammar does; on failure it reports the same position, with the nodes built so far still a tree |
| `JsonParser.ParseArrayAt` | example/json/cJSON.c:324-350 | parse_array builds the children as a well-formed chain on fresh nodes, with the values of the list in order |
| `JsonParser.ParseItemInto` | example/json/cJSON.c:335 | one item with the white space around it |
| `JsonParser.ParseNextItem` | example/json/cJSON.c:338-346 | one turn of the loop: the node is linked before it is parsed into, and the chain stays well formed even when parsing fails |
| `JsonParser.LinkNew` | example/json/cJSON.c:343 | linking an empty node behind the last child leaves the finished part of the chain and its contents alone |
| `JsonParser.ParseMemberInto` | example/json/cJSON.c:422-427 | one member: the string just read becomes the name, then a colon and the value |
| `JsonParser.ParseNextMember` | example/json/cJSON.c:429-441 | one turn of the loop over members |
| `JsonParser.ParseObjectAt` | example/json/cJSON.c:411-445 | parse_object builds the named children in order |
| `JsonParser.ParseWithOptions` | example/json/cJSON.c:268-282 | the result is the tree the grammar gives and the position behind it, and there are no other new nodes; on failure the position of the error, and every node allocated on the way is freed exactly once |
| `JsonPrinter.PrintNulFree` | example/json/cJSON.c:219-513 | no printed text contains the terminator |
| `JsonPrinter.IntTextFits` | example/json/cJSON.c:127-129 | 21 characters hold every 32-bit integer and its terminator |
| `JsonPrinter.PrintNumber` | example/json/cJSON.c:121-142 | an integer node is printed as its decimal text |
| `JsonPrinter.PrintString` | example/json/cJSON.c:219-254 | a string node is printed as its escaped literal |
| `JsonPrinter.ArrayRoom` | example/json/cJSON.c:353-406 | of the length added up in the first pass of print_array, exactly the separators counted too often stay unused: one for each item, one more, and one more when formatted |
| `JsonPrinter.ObjectRoom` | example/json/cJSON.c:448-511 | of the length added up in the first pass of print_object, exactly one character stays unused |
| `JsonPrinter.ComposeArray` | example/json/cJSON.c:396-406 | the second pass writes the array text within the length of the first, terminator included |
| `JsonPrinter.ComposeObject` | example/json/cJSON.c:496-511 | the second pass writes the object text within the length of the first, terminator included |
| `JsonPrinter.PrintNoMembers` | example/json/cJSON.c:457-465 | the empty object fits its buffer, including the indentation it prints |
| `JsonPrinter.CopyText` | example/json/cJSON.c:401-503 | the strcpy of an entry |
| `JsonPrinter.CollectArray` | example/json/cJSON.c:373-381 | the first pass prints every child and adds up the length |
| `JsonPrinter.CollectObject` | example/json/cJSON.c:474-482 | the first pass prints every name and value and adds up the length |
| `JsonPrinter.PrintArray` | example/json/cJSON.c:353-408 | print_array writes the text of the array into a buffer it never overruns |
| `JsonPrinter.PrintObject` | example/json/cJSON.c:448-513 | print_object writes the text of the object into a buffer it never overruns |
| `JsonPrinter.PrintValue` | example/json/cJSON.c:306-321 | print_value gives a fresh, terminated buffer with the text of the tree, at every depth and in both formats |
| `AesTables.SiUndoesS` | thirdpartylib/JingDong/auth/aes.c:14-679 | the S-box in the last decryption table inverts the one in the last encryption table |
| `AesTables.SUndoesSi` | thirdpartylib/JingDong/auth/aes.c:14-679 | and the other way round |
| `AesTables.SBoxDefinition` | thirdpartylib/JingDong/auth/aes.c:14-345 | every entry of the S-box is the affine image of the multiplicative inverse in GF(2^8), as section 5.1.1 of FIPS 197 defines it |
| `AesTables.Te0Entry` | thirdpartylib/JingDong/auth/aes.c:14-345 | each of the 256 entries of table 0 is the S-box value times the MixColumns column 2, 1, 1, 3 |
| `AesTables.Te1Entry` | thirdpartylib/JingDong/auth/aes.c:14-345 | each of the 256 entries of table 1 is the S-box value times the MixColumns column 3, 2, 1, 1 |
| `AesTables.Te2Entry` | thirdpartylib/JingDong/auth/aes.c:14-345 | each of the 256 entries of table 2 is the S-box value times the MixColumns column 1, 3, 2, 1 |
| `AesTables.Te3Entry` | thirdpartylib/JingDong/auth/aes.c:14-345 | each of the 256 entries of table 3 is the S-box value times the MixColumns column 1, 1, 3, 2 |
| `AesTables.Te4Entry` | thirdpartylib/JingDong/auth/aes.c:14-345 | the last table repeats the S-box value four times |
| `AesTables.Td0Entry` | thirdpartylib/JingDong/auth/aes.c:347-679 | each of the 256 entries of table 0 is the inverse S-box value times the inverse MixColumns column 14, 9, 13, 11 |
| `AesTables.Td1Entry` | thirdpartylib/JingDong/auth/aes.c:347-679 | each of the 256 entries of table 1 is the inverse S-box value times the inverse MixColumns column 11, 14, 9, 13 |
| `AesTables.Td2Entry` | thirdpartylib/JingDong/auth/aes.c:347-679 | each of the 256 entries of table 2 is the inverse S-box value times the inverse MixColumns column 13, 11, 14, 9 |
| `AesTables.Td3Entry` | thirdpartylib/JingDong/auth/aes.c:347-679 | each of the 256 entries of table 3 is the inverse S-box value times the inverse MixColumns column 9, 13, 11, 14 |
| `AesTables.Td4Entry` | thirdpartylib/JingDong/auth/aes.c:347-679 | the last table repeats the inverse S-box value four times |
| `AesCipher.MulAdds` | thirdpartylib/JingDong/auth/aes.c:347-679 | multiplication in GF(2^8) distributes over addition |
| `AesCipher.MixUndone` | thirdpartylib/JingDong/auth/aes.c:854-878 | inverse MixColumns undoes MixColumns |
| `AesCipher.InvMixAdds` | thirdpartylib/JingDong/auth/aes.c:854-878 | inverse MixColumns is linear, which is why the middle round keys are mixed |
| `AesCipher.SubShiftUndone` | thirdpartylib/JingDong/auth/aes.c:1033-1167 | inverse substitution and inverse shifting undo substitution and shifting, in whichever order |
| `AesCipher.InvRoundsUndo` | thirdpartylib/JingDong/auth/aes.c:1033-1167 | after i rounds the equivalent inverse cipher stands where the cipher stood i rounds before its end |
| `AesCipher.CipherUndone` | thirdpartylib/JingDong/auth/aes.c:894-1167 | for every schedule of at least two round keys and every block, the equivalent inverse cipher with the schedule of section 5.3.5 of FIPS 197 undoes the cipher of section 5.1 |
| `AesVectors.A1Turn10` | thirdpartylib/JingDong/auth/aes.c:744-790 | the key expansion of appendix A.1 of FIPS 197 ends with its last four words |
| `AesVectors.A2Turn2` | thirdpartylib/JingDong/auth/aes.c:788-807 | the 24-byte key of appendix A.2, in its third turn |
| `AesVectors.A3Turn2` | thirdpartylib/JingDong/auth/aes.c:809-836 | the 32-byte key of appendix A.3, with its extra substitution |
| `AesVectors.CipherExample` | thirdpartylib/JingDong/auth/aes.c:894-1030 | the example of appendix B of FIPS 197: the sixteen bytes of the key turn those of the input into those of the output |
| `AesBlock.TeColumn` | thirdpartylib/JingDong/auth/aes.c:931-986 | four table lookups are SubBytes, MixColumns and the round key on one shifted column |
| `AesBlock.TdColumn` | thirdpartylib/JingDong/auth/aes.c:1070-1125 | the same for the inverse round |
| `AesBlock.TeLastColumn` | thirdpartylib/JingDong/auth/aes.c:993-1016 | the masked lookups of the last round are substitution without mixing |
| `AesBlock.TdLastColumn` | thirdpartylib/JingDong/auth/aes.c:1130-1153 | the same for the inverse cipher |
| `AesBlock.FullRound` | thirdpartylib/JingDong/auth/aes.c:931-986 | the four lookups of one line group are one full round of section 5.1 of FIPS 197 |
| `AesBlock.LastRound` | thirdpartylib/JingDong/auth/aes.c:993-1016 | the last group is the last round, without MixColumns |
| `AesBlock.FullInvRound` | thirdpartylib/JingDong/auth/aes.c:1070-1125 | one full round of the equivalent inverse cipher |
| `AesBlock.LastInvRound` | thirdpartylib/JingDong/auth/aes.c:1130-1153 | the last round of the equivalent inverse cipher |
| `AesBlock.LoadReversed` | thirdpartylib/JingDong/auth/aes.c:701-715 | the byte reversal turns a word loaded on a little-endian machine into the big-endian word of its four bytes |
| `AesBlock.StoreReversed` | thirdpartylib/JingDong/auth/aes.c:701-715 | storing the reversed word leaves the bytes of the column in order |
| `AesKeys.RconIsPower` | thirdpartylib/JingDong/auth/aes.c:681-686 | the ten constants are the powers of x in GF(2^8) |
| `AesKeys.FirstWordIs` | thirdpartylib/JingDong/auth/aes.c:772-778 | the masked lookups at the start of a turn are RotWord, SubWord and the round constant |
| `AesKeys.FifthWordIs` | thirdpartylib/JingDong/auth/aes.c:824-829 | the extra lookups for 32-byte keys are SubWord |
| `AesKeys.Expand16` | thirdpartylib/JingDong/auth/aes.c:769-786 | the expansion of 16-byte keys is that of section 5.2 of FIPS 197, word by word |
| `AesKeys.Expand24` | thirdpartylib/JingDong/auth/aes.c:788-807 | the expansion of 24-byte keys |
| `AesKeys.Expand32` | thirdpartylib/JingDong/auth/aes.c:809-836 | the expansion of 32-byte keys |
| `AesKeys.LoadKey` | thirdpartylib/JingDong/auth/aes.c:763-766 | the key bytes are loaded as big-endian words |
| `AesKeys.ByteReverseWords` | thirdpartylib/JingDong/auth/aes.c:717-725 | every word is reversed, and in place as well |
| `AesKeys.ReverseRoundKeys` | thirdpartylib/JingDong/auth/aes.c:847-853 | the swapping loop inverts the order of the round keys |
| `AesKeys.MixWordIs` | thirdpartylib/JingDong/auth/aes.c:858-862 | the decryption tables indexed through the S-box compute inverse MixColumns |
| `AesKeys.MixRoundKey` | thirdpartylib/JingDong/auth/aes.c:857-877 | one round key is mixed, the others are kept |
| `AesKeys.InvertSchedule` | thirdpartylib/JingDong/auth/aes.c:842-879 | the two loops turn an encryption schedule into the decryption schedule of section 5.3.5 of FIPS 197 |
| `AesKeys.AesSetKeyLocal` | thirdpartylib/JingDong/auth/aes.c:755-882 | for 16, 24 and 32 bytes the context holds the schedule of the key, or its decryption schedule |
| `AesKeys.AesSetKey` | thirdpartylib/JingDong/auth/aes.c:884-892 | other lengths are refused with nothing changed |
| `AesKeys.AesSetIV` | thirdpartylib/JingDong/auth/aes.c:744-753 | the chaining register becomes the initialisation vector; without one it stays |
| `AesModes.BlockUndone` | thirdpartylib/JingDong/auth/aes.c:894-1167 | on blocks of bytes, decryption with the decryption schedule undoes encryption |
| `AesModes.EncryptTurns` | thirdpartylib/JingDong/auth/aes.c:931-986 | the loop of two rounds a turn, left in the middle of the last turn, has done all full rounds but none twice |
| `AesModes.EncryptState` | thirdpartylib/JingDong/auth/aes.c:922-1016 | the words of the state end as the cipher of section 5.1 of FIPS 197 on them, for any even number of rounds up to 14 |
| `AesModes.AesEncrypt` | thirdpartylib/JingDong/auth/aes.c:894-1030 | the output block is the cipher of section 5.1 of FIPS 197 on the input block, also when they are the same buffer; a context without a key changes nothing |
| `AesModes.DecryptTurns` | thirdpartylib/JingDong/auth/aes.c:1070-1125 | the same loop for decryption |
| `AesModes.DecryptState` | thirdpartylib/JingDong/auth/aes.c:1061-1153 | the words of the state end as the equivalent inverse cipher on them |
| `AesModes.AesDecrypt` | thirdpartylib/JingDong/auth/aes.c:1033-1167 | the output block is the equivalent inverse cipher on the input block, in place as well |
| `AesModes.CbcUndone` | thirdpartylib/JingDong/auth/aes.c:1169-1200 | CBC with any block function that can be undone can be undone, on all whole blocks |
| `AesModes.CbcBlock` | thirdpartylib/JingDong/auth/aes.c:1169-1183 | block j of a chained text is the enciphered exclusive or of its text, byte by byte, with the ciphertext block before it or the vector |
| `AesModes.XorBuf` | thirdpartylib/JingDong/auth/aes.c:734-742 | each byte is combined with the mask and nothing else is written |
| `AesModes.EncryptNext` | thirdpartylib/JingDong/auth/aes.c:1173-1180 | one block: the register becomes the next output |
| `AesModes.AesCbcEncrypt` | thirdpartylib/JingDong/auth/aes.c:1169-1183 | the whole blocks of the input are chained from the register into the output, also in place; the rest of the output is untouched |
| `AesModes.DecryptNext` | thirdpartylib/JingDong/auth/aes.c:1189-1197 | one block: the ciphertext is kept before the output may overwrite it |
| `AesModes.AesCbcDecrypt` | thirdpartylib/JingDong/auth/aes.c:1185-1200 | the inverse, also in place |
| `AesModes.PaddingUndone` | thirdpartylib/JingDong/auth/aes.c:1218-1248 | the last byte of a padded text tells where the text ends |
| `AesModes.PaddedIs` | thirdpartylib/JingDong/auth/aes.c:1218-1231 | a byte string is the padded text if and only if it is the text followed by one to sixteen bytes, up to a multiple of sixteen, each of which is their number |
| `AesModes.PadText` | thirdpartylib/JingDong/auth/aes.c:1211-1232 | behind the text, up to a multiple of sixteen, every byte written is the number of bytes added, as in section 6.3 of RFC 5652; when the text fills its blocks the loop writes one block more than it returns, and no byte behind that |
| `AesModes.MessageRoundTrip` | thirdpartylib/JingDong/auth/aes.c:1205-1249 | for every key of 16, 24 or 32 bytes, every vector and every text, decrypting what was encrypted and padded gives the text and its length |
| `AesModes.DeviceAesEncrypt` | thirdpartylib/JingDong/auth/aes.c:1205-1235 | the result is the CBC encryption of the padded text under the key; it is refused, with nothing written, exactly when the room is less than the text rounded up to blocks, and otherwise the cells written are those up to the reach of the padding loop |
| `AesModes.AcceptedStaysInside` | thirdpartylib/JingDong/auth/aes.c:1210-1232 | a call that is let through writes inside the room it was given if and only if the text does not fill its blocks or two more blocks fit, and its result fits that room if and only if the text does not fill its blocks or one more block fits |
| `AesModes.BlockLeavesRoom` | thirdpartylib/JingDong/auth/aes.c:1210-1232 | sixteen bytes with room for sixteen are let through: thirty-two are the result and forty-eight are written |
| `AesModes.DeviceAesDecrypt` | thirdpartylib/JingDong/auth/aes.c:1237-1249 | the output is the CBC decryption under the decryption schedule, and the length is read off its last byte |
| `Md5Transform.StepIs` | thirdpartylib/JingDong/auth/md5.c:10-38 | one macro line is one step of section 3.4 of RFC 1321, given its table entries |
| `Md5Transform.Steps1To4` | thirdpartylib/JingDong/auth/md5.c:124-127 | the lines of steps 1 to 4, each with its word, shift and constant, are those steps of the standard |
| `Md5Transform.Steps5To8` | thirdpartylib/JingDong/auth/md5.c:128-131 | the lines of steps 5 to 8, each with its word, shift and constant, are those steps of the standard |
| `Md5Transform.Steps9To12` | thirdpartylib/JingDong/auth/md5.c:132-135 | the lines of steps 9 to 12, each with its word, shift and constant, are those steps of the standard |
| `Md5Transform.Steps13To16` | thirdpartylib/JingDong/auth/md5.c:136-139 | the lines of steps 13 to 16, each with its word, shift and constant, are those steps of the standard |
| `Md5Transform.Steps17To20` | thirdpartylib/JingDong/auth/md5.c:142-145 | the lines of steps 17 to 20, each with its word, shift and constant, are those steps of the standard |
| `Md5Transform.Steps21To24` | thirdpartylib/JingDong/auth/md5.c:146-149 | the lines of steps 21 to 24, each with its word, shift and constant, are those steps of the standard |
| `Md5Transform.Steps25To28` | thirdpartylib/JingDong/auth/md5.c:150-153 | the lines of steps 25 to 28, each with its word, shift and constant, are those steps of the standard |
| `Md5Transform.Steps29To32` | thirdpartylib/JingDong/auth/md5.c:154-157 | the lines of steps 29 to 32, each with its word, shift and constant, are those steps of the standard |
| `Md5Transform.Steps33To36` | thirdpartylib/JingDong/auth/md5.c:160-163 | the lines of steps 33 to 36, each with its word, shift and constant, are those steps of the standard |
| `Md5Transform.Steps37To40` | thirdpartylib/JingDong/auth/md5.c:164-167 | the lines of steps 37 to 40, each with its word, shift and constant, are those steps of the standard |
| `Md5Transform.Steps41To44` | thirdpartylib/JingDong/auth/md5.c:168-171 | the lines of steps 41 to 44, each with its word, shift and constant, are those steps of the standard |
| `Md5Transform.Steps45To48` | thirdpartylib/JingDong/auth/md5.c:172-175 | the lines of steps 45 to 48, each with its word, shift and constant, are those steps of the standard |
| `Md5Transform.Steps49To52` | thirdpartylib/JingDong/auth/md5.c:178-181 | the lines of steps 49 to 52, each with its word, shift and constant, are those steps of the standard |
| `Md5Transform.Steps53To56` | thirdpartylib/JingDong/auth/md5.c:182-185 | the lines of steps 53 to 56, each with its word, shift and constant, are those steps of the standard |
| `Md5Transform.Steps57To60` | thirdpartylib/JingDong/auth/md5.c:186-189 | the lines of steps 57 to 60, each with its word, shift and constant, are those steps of the standard |
| `Md5Transform.Steps61To64` | thirdpartylib/JingDong/auth/md5.c:190-193 | the lines of steps 61 to 64, each with its word, shift and constant, are those steps of the standard |
| `Md5Transform.Decode` | thirdpartylib/JingDong/auth/md5.c:103-115 | sixteen words are read low-order byte first |
| `Md5Transform.Transform` | thirdpartylib/JingDong/auth/md5.c:116-198 | the state becomes the compression of section 3.4 of RFC 1321 of the state and the block |
| `Md5Transform.FSelects` | thirdpartylib/JingDong/auth/md5.c:10 | F takes its second word where the first has ones and its third elsewhere |
| `Md5Transform.GSelects` | thirdpartylib/JingDong/auth/md5.c:11 | G takes its first word where the third has ones and its second elsewhere |
| `Md5Transform.HIsParity` | thirdpartylib/JingDong/auth/md5.c:12 | H gives the parity of its words |
| `Md5Transform.IFlips` | thirdpartylib/JingDong/auth/md5.c:13 | I turns its second word over where the third has zeros, and elsewhere where the first has ones |
| `Md5Transform.RotationsTurn` | thirdpartylib/JingDong/auth/md5.c:14 | the sixteen rotations of the steps turn a word by their number of bits |
| `Md5Vectors.EmptyDigest` | thirdpartylib/JingDong/auth/md5.c:46-89 | the digest of the empty message is d41d8cd98f00b204e9800998ecf8427e, as section A.5 of RFC 1321 has it, through 64 steps with their states |
| `Md5Vectors.AbcDigest` | thirdpartylib/JingDong/auth/md5.c:46-89 | the digest of abc is 900150983cd24fb0d6963f7d28e17f72 |
| `Md5.Context.constructor` | thirdpartylib/JingDong/auth/md5.c:46-54 | a new context has hashed the empty message |
| `Md5.BlocksAppend` | thirdpartylib/JingDong/auth/md5.c:65-72 | hashing whole blocks and then more is hashing both together |
| `Md5.CarriedIsCount` | thirdpartylib/JingDong/auth/md5.c:60-63 | the carry between the two words makes the pair the number of bits modulo 2^64, for every input length below 2^32 |
| `Md5.IndexIsRest` | thirdpartylib/JingDong/auth/md5.c:58 | the buffer index read from the low word is the number of bytes fed modulo 64 |
| `Md5.Context.Count` | thirdpartylib/JingDong/auth/md5.c:60-63 | the counter words and the carry |
| `Md5.Context.FillBuffer` | thirdpartylib/JingDong/auth/md5.c:67-68 | the block in the buffer is completed and hashed |
| `Md5.Context.TransformAll` | thirdpartylib/JingDong/auth/md5.c:69-70 | the loop hashes every whole block of the input and leaves less than one |
| `Md5.Context.Absorb` | thirdpartylib/JingDong/auth/md5.c:65-76 | whichever branch is taken, the state is the hash of the whole blocks so far and the rest is accounted for |
| `Md5.Context.Update` | thirdpartylib/JingDong/auth/md5.c:55-78 | the context has hashed what it had hashed before, followed by the input |
| `Md5.Context.CountBytes` | thirdpartylib/JingDong/auth/md5.c:85 | the counter is stored low-order byte first before the padding is fed |
| `Md5.Context.Final` | thirdpartylib/JingDong/auth/md5.c:79-89 | the digest is that of sections 3.1 to 3.5 of RFC 1321 on everything fed |
| `Md5.Encode` | thirdpartylib/JingDong/auth/md5.c:90-102 | words are written low-order byte first |
| `Md5.HashPieces` | thirdpartylib/JingDong/auth/md5.c:46-89 | however a message is cut into calls of MD5Update, the digest is the digest of the whole message |
| `Crc.Crc8` | thirdpartylib/JingDong/auth/crc.c:18-45 | crc8, with its walking mask, computes the bit-serial register with polynomial 0x31 on the buffer |
| `Crc.JoylinkCrc` | thirdpartylib/JingDong/joylink_smnt/joylink_smnt.c:597-616 | joylink_smnt_crc, which combines whole bytes first, computes the same function on every buffer of up to 255 bytes |
| `Crc.Burst8Detected` | thirdpartylib/JingDong/auth/crc.c:18-45 | every change confined to eight consecutive bits changes the register, whatever comes before and behind |
| `Crc.SingleByteErrorDetected` | thirdpartylib/JingDong/auth/crc.c:18-45 | a change to exactly one byte always changes the checksum |
| `Crc.Fold16IsEightClocks` | thirdpartylib/JingDong/auth/crc.c:9-13 | one iteration of shifts and exclusive-ors equals eight clocks of the register with polynomial 0x1021, high bit first |
| `Crc.Crc16` | thirdpartylib/JingDong/auth/crc.c:2-16 | CRC16 is the bit-serial register on the whole buffer, started at 0xFFFF; a null buffer counts as empty |
| `Crc.CheckValues` | thirdpartylib/JingDong/auth/crc.c:2-45 | the check values of the digits 1 to 9: 0xA1 for the CRC-8 and 0x29B1 for the CRC-16 |
| `Crc.Burst16Detected` | thirdpartylib/JingDong/auth/crc.c:2-16 | every change confined to sixteen consecutive bits changes the CRC-16 |
| `Jsmn.Resume` | thirdpartylib/JingDong/jsmn/jsmn.c:153-270 | wherever a call on a prefix ends, and so when it ends with JSMN_ERROR_PART, calling again on the longer text ends with the same tokens, position, innermost container and code as one call on the whole text, and the two counts add up to its count |
| `Jsmn.TurnPrefix` | thirdpartylib/JingDong/jsmn/jsmn.c:160-261 | a turn that the prefix can take is the same turn on the longer text; a refusal is the same unless the text is cut inside an escape |
| `Jsmn.StringScanPrefix` | thirdpartylib/JingDong/jsmn/jsmn.c:86-148 | a string that ends in a prefix ends at the same place in the longer text; a refused one stays refused unless the cut is behind an unescaped backslash |
| `Jsmn.EscapeCompleted` | thirdpartylib/JingDong/jsmn/jsmn.c:95-145 | a string cut between a backslash and what it escapes is refused, and with one more character and a quote it is closed |
| `Jsmn.EndsAtStop` | thirdpartylib/JingDong/jsmn/jsmn.c:160-269 | a call ends at the end of the text, or in the state in which a turn stopped it, with the code of that turn |
| `Jsmn.CutIsPartial` | thirdpartylib/JingDong/jsmn/jsmn.c:86-148 | for every text and state: the call is refused as invalid although some longer text is not, if and only if it stops at a string whose scan reaches an unescaped backslash at the very end of the text |
| `Jsmn.CutBehindBackslash` | thirdpartylib/JingDong/jsmn/jsmn.c:115-143 | texts for both sides: a string cut behind its backslash is refused and its completion accepted; a final backslash that is escaped itself leaves the text incomplete; a backslash outside a string is refused with everything that may follow |
| `SpellingTokens.DocLeads` | thirdpartylib/JingDong/jsmn/jsmn.c:153-270 | from any state, the tokenizer reads the text of a value of RFC 8259 as its tokens, below the innermost container, whatever blanks stand in it |
| `SpellingTokens.ItemsLeads` | thirdpartylib/JingDong/jsmn/jsmn.c:153-270 | items become children of the array |
| `SpellingTokens.EntriesLeads` | thirdpartylib/JingDong/jsmn/jsmn.c:153-270 | names and values become children of the object, two for each entry |
| `SpellingTokens.StandardIsTokenized` | thirdpartylib/JingDong/jsmn/jsmn.c:153-270 | every object, array and string of RFC 8259, in every spelling of its strings and numbers and with any white space around and between its tokens, is accepted to the last character with its tokens, each over its own text, and their number is returned |
| `SpellingTokens.CountIsTokens` | thirdpartylib/JingDong/jsmn/jsmn.c:153-270 | the number returned is that of the tokens added |
| `SpellingTokens.LongArrayAccepted` | thirdpartylib/JingDong/jsmn/jsmn.c:153-270 | a document with an array of any number of values is accepted, with that many children and that number modulo 256 as the size; for 256 the size is 0 |
| `JsmnStrict.RoomNeeded` | thirdpartylib/JingDong/jsmn/jsmn.c:8-24 | for every text and state, a call with less room ends exactly as one with more when its tokens fit, and with JSMN_ERROR_NOMEM and a full array when they do not |
| `JsmnStrict.StandardNeedsRoom` | thirdpartylib/JingDong/jsmn/jsmn.c:153-270 | a document of RFC 8259 is accepted if and only if there is room for its tokens, and otherwise refused as too large |
| `JsmnStrict.PrimitiveIs` | thirdpartylib/JingDong/jsmn/jsmn.c:37-71 | a primitive ends where a blank, a comma or a closing bracket stands and everything before is printable and none of these; in no other case is there one |
| `JsmnStrict.StringIs` | thirdpartylib/JingDong/jsmn/jsmn.c:86-148 | a string ends at a quote if and only if what stands before it is made of plain characters, the eight short escapes and \u with four hexadecimal digits |
| `JsmnStrict.AcceptedIsStrict` | thirdpartylib/JingDong/jsmn/jsmn.c:153-270 | every text that is accepted has been read to its end, all its strings and primitives are spelled so, and besides them it has only brackets, commas, colons and white space |
| `JsmnForest.TurnKeeps` | thirdpartylib/JingDong/jsmn/jsmn.c:160-261 | every turn keeps the invariant: parents before children, spans nested, siblings apart, sizes counted, open containers in a chain, toksuper the innermost of them |
| `JsmnForest.RunKeeps` | thirdpartylib/JingDong/jsmn/jsmn.c:153-270 | the invariant holds at the end of every call, whether complete, incomplete or refused |
| `JsmnForest.SuccessIsForest` | thirdpartylib/JingDong/jsmn/jsmn.c:263-269 | on success the tokens form a forest: closed, ordered, nested, spelled as their kinds say, each size the number of direct children modulo 256, and toksuper is -1 |
| `JsmnForest.UpAfterClose` | thirdpartylib/JingDong/jsmn/jsmn.c:184-206 | after a closing bracket every way up that ended at the closed container ends at its parent |
| `JsmnForest.CloseSound` | thirdpartylib/JingDong/jsmn/jsmn.c:184-206 | closing the innermost container keeps the structure |
| `JsmnForest.AddSound` | thirdpartylib/JingDong/jsmn/jsmn.c:166-183 | a new token below the innermost container keeps the structure |
| `JsmnForest.InvLonger` | thirdpartylib/JingDong/jsmn/jsmn.c:153-270 | the invariant carries over to a longer text, so a resumed call starts with it |
| `JsmnForest.StrayBracket` | thirdpartylib/JingDong/jsmn/jsmn.c:188-206 | in every state without an open container, a closing bracket is refused if and only if no token has been allocated; otherwise the whole call ends as if it went on behind the bracket, and as if a blank stood in its place |
| `JsmnForest.RunBehind` | thirdpartylib/JingDong/jsmn/jsmn.c:160-269 | a call does not depend on what the text holds behind its position |
| `JsmnForest.StrayBracketTexts` | thirdpartylib/JingDong/jsmn/jsmn.c:188-206 | a text for each of the two cases |
| `JsmnForest.SizeIsCount` | thirdpartylib/JingDong/jsmn/jsmn.c:153-270 | at the end of every call, the size of a token is the number of its children if and only if there are fewer than 256 |
| `JsmnArray.Parser.constructor` | thirdpartylib/JingDong/jsmn/jsmn.c:276-280 | the fields after jsmn_init |
| `JsmnArray.Parser.AllocToken` | thirdpartylib/JingDong/jsmn/jsmn.c:8-21 | the next token is taken and cleared, or the array is full and nothing changes |
| `JsmnArray.Parser.FillLeaf` | thirdpartylib/JingDong/jsmn/jsmn.c:26-32 | the new token of a leaf, or no change when the array is full |
| `JsmnArray.Parser.ParsePrimitive` | thirdpartylib/JingDong/jsmn/jsmn.c:37-81 | a primitive becomes one token; an incomplete or malformed one, or a full array, puts the position back |
| `JsmnArray.Parser.SkipHex` | thirdpartylib/JingDong/jsmn/jsmn.c:124-138 | the digits of a \u escape: up to four, fewer only at the terminator |
| `JsmnArray.Parser.ParseString` | thirdpartylib/JingDong/jsmn/jsmn.c:86-148 | a string becomes one token without its quotes, or the position is put back |
| `JsmnArray.Parser.Bump` | thirdpartylib/JingDong/jsmn/jsmn.c:234-235 | the size of the container goes up by one in its byte |
| `JsmnArray.Parser.OpenContainer` | thirdpartylib/JingDong/jsmn/jsmn.c:166-183 | an opening bracket becomes the innermost container |
| `JsmnArray.Parser.CloseContainer` | thirdpartylib/JingDong/jsmn/jsmn.c:184-206 | a closing bracket closes the first open container on the way up from the last token, and the kind must match |
| `JsmnArray.Parser.LeafTurn` | thirdpartylib/JingDong/jsmn/jsmn.c:230-253 | a leaf, its count and the size of its container |
| `JsmnArray.Parser.Turn` | thirdpartylib/JingDong/jsmn/jsmn.c:160-261 | one iteration of the main loop updates parser and array as the turn on values does |
| `JsmnArray.Parser.Parse` | thirdpartylib/JingDong/jsmn/jsmn.c:153-270 | jsmn_parse ends with the parser and the tokens that the run on values ends with, returns its code or count, and never touches tokens it has not allocated |
| `JsonGenerator.WriteRefinesGrow` | thirdpartylib/JingDong/jsmn/json_generator.c:81-325 | after any run of operations the buffer holds what an unbounded writer would have written, or a full-length prefix of it |
| `JsonGenerator.FullIsFrozen` | thirdpartylib/JingDong/jsmn/json_generator.c:81-93 | in a full buffer every operation reports an error and writes nothing |
| `JsonGenerator.FullForever` | thirdpartylib/JingDong/jsmn/json_generator.c:81-93 | and so for every run that follows |
| `JsonGenerator.ReadyFromStart` | thirdpartylib/JingDong/jsmn/json_generator.c:95-325 | a run from the empty buffer never looks in front of its text or past it if and only if its first operation does not look back or at the start |
| `JsonGenerator.WriteReadyFrom` | thirdpartylib/JingDong/jsmn/json_generator.c:95-325 | a run that may be performed without a limit may be performed in any buffer with room for one character |
| `JsonGenerator.CloseMeansComplete` | thirdpartylib/JingDong/jsmn/json_generator.c:164-172 | when the closing brace at the end of a run succeeds, nothing before it was cut or dropped: the buffer holds the unbounded text |
| `JsonGenerator.TerminatorLost` | thirdpartylib/JingDong/jsmn/json_generator.c:141-198 | from a terminated text, an operation leaves no terminator exactly when the comma and the bracket of json_start_object or json_start_array go into the last two places |
| `JsonGenerator.TerminatorLostRun` | thirdpartylib/JingDong/jsmn/json_generator.c:141-162 | a run of three operations in four bytes that does so |
| `JsonGenerator.Writer.constructor` | thirdpartylib/JingDong/jsmn/json_generator.c:95-101 | the buffer is cleared and empty |
| `JsonGenerator.Writer.RevSkip` | thirdpartylib/JingDong/jsmn/json_generator.c:31-36 | the backward search finds the last character that is not white space |
| `JsonGenerator.Writer.Skip` | thirdpartylib/JingDong/jsmn/json_generator.c:24-29 | the forward search finds the first one |
| `JsonGenerator.Writer.VerifyStart` | thirdpartylib/JingDong/jsmn/json_generator.c:70-79 | the start check accepts exactly texts that start with a brace |
| `JsonGenerator.Writer.Print` | thirdpartylib/JingDong/jsmn/json_generator.c:103-120 | a cut print and strlen leave free_ptr at the terminator, behind as much of the text as fits |
| `JsonGenerator.Writer.Push` | thirdpartylib/JingDong/jsmn/json_generator.c:103-139 | pushing a named object or array writes what the operation on texts writes and returns its code |
| `JsonGenerator.Writer.StartObject` | thirdpartylib/JingDong/jsmn/json_generator.c:141-162 | the same for json_start_object |
| `JsonGenerator.Writer.StartArray` | thirdpartylib/JingDong/jsmn/json_generator.c:184-198 | the same for json_start_array |
| `JsonGenerator.Writer.Close` | thirdpartylib/JingDong/jsmn/json_generator.c:164-207 | the same for the three closing functions |
| `JsonGenerator.Writer.SetArrayValue` | thirdpartylib/JingDong/jsmn/json_generator.c:209-250 | the same for json_set_array_value, whose start error has the other sign |
| `JsonGenerator.Writer.SetObjectValue` | thirdpartylib/JingDong/jsmn/json_generator.c:252-325 | the same for json_set_object_value |
| `GeneratedText.FieldGrows` | thirdpartylib/JingDong/jsmn/json_generator.c:103-325 | the operations of a field append its comma, name and value, whatever came before it |
| `GeneratedText.ItemGrows` | thirdpartylib/JingDong/jsmn/json_generator.c:141-250 | the operations of an array item append its comma and value wherever the look-back for commas finds what it looks for |
| `GeneratedText.FieldsWithin` | thirdpartylib/JingDong/jsmn/json_generator.c:103-325 | the operations of any fields append no more characters than their text has, and as many only if every array in them is in order |
| `GeneratedText.ItemsWithin` | thirdpartylib/JingDong/jsmn/json_generator.c:141-250 | the operations of any array items append no more characters than their text has, and as many only if the array and every array in it are in order: values of the known types, objects behind objects, arrays behind arrays |
| `GeneratedText.DocumentGrows` | thirdpartylib/JingDong/jsmn/json_generator.c:103-325 | for every document, whatever its names and strings: the run that writes it gives the compact text of its tree if and only if every array is in order, that is, values are of the types json_set_array_value knows and no object or array but the first item follows an item of another kind |
| `GeneratedText.DocumentComplete` | thirdpartylib/JingDong/jsmn/json_generator.c:103-325 | for every document in a buffer: closed with success, the buffer holds the whole text of the tree, with room for the terminator, if and only if every array is in order |
| `GeneratedText.MixedArray` | thirdpartylib/JingDong/jsmn/json_generator.c:141-250 | a run with an array out of order: an object behind a value gets no comma |
| `GeneratedText.MixedArrayInOrder` | thirdpartylib/JingDong/jsmn/json_generator.c:141-250 | a run with a mixed array in order: a value behind an object gets its comma |
| `GeneratedTokens.TreeTextIs` | thirdpartylib/JingDong/jsmn/json_generator.c:95-325 | the text written for a tree is that of a document of RFC 8259 |
| `GeneratedTokens.TreeMeans` | thirdpartylib/JingDong/jsmn/json_generator.c:95-325 | that document means the tree: its names, strings, numbers and nesting |
| `GeneratedTokens.DocumentAccepted` | thirdpartylib/JingDong/jsmn/jsmn.c:153-270 | jsmn accepts the text of a document to the last character, with the tokens of its tree, each over its own text |
| `GeneratedTokens.DocumentParsed` | example/json/cJSON.c:268-282 | cJSON reads the text of a document as the tree that was meant |
| `GeneratedTokens.BufferAccepted` | thirdpartylib/JingDong/jsmn/json_generator.c:103-325 | from the writer to both readers: a document with plain names and strings and arrays in order, closed with success in any buffer, is accepted by jsmn with the tokens of its tree, and read by cJSON as the tree |
| `MqttCodec.LengthRoundTrip` | example/mqtt_ssl/MQTT/mqttlib.c:45-79 | decoding an encoded remaining length gives the number and the bytes it took, as section 2.2.3 of MQTT 3.1.1 requires |
| `MqttCodec.ParseRemLen` | example/mqtt_ssl/MQTT/mqttlib.c:62-79 | the accumulating loop computes the decoded length modulo 2^16 |
| `MqttCodec.NumRemLenBytes` | example/mqtt_ssl/MQTT/mqttlib.c:45-60 | the number of length bytes, counted up to four |
| `MqttCodec.ParsePubTopicPtr` | example/mqtt_ssl/MQTT/mqttlib.c:125-141 | where the topic is and how long; nothing for other packets |
| `MqttCodec.ParsePubMsgPtr` | example/mqtt_ssl/MQTT/mqttlib.c:157-186 | where the message is and how long, with the offset kept in eight bits |
| `MqttCodec.ParseMsgId` | example/mqtt_ssl/MQTT/mqttlib.c:81-110 | the packet id, where the packet type has one |
| `MqttCodec.LengthFieldIsStandard` | example/mqtt_ssl/MQTT/mqttlib.c:406-415 | the length field that the publisher writes is the encoding of the standard if and only if the length is at most 16383 |
| `MqttCodec.PublishWithQos` | example/mqtt_ssl/MQTT/mqttlib.c:350-433 | the packet sent is the publish packet of its arguments with the next id, and the id advances exactly for QoS 1 and 2 |
| `MqttCodec.PacketLayout` | example/mqtt_ssl/MQTT/mqttlib.c:350-433 | where each piece of a publish packet lies |
| `MqttCodec.PublishRoundTrip` | example/mqtt_ssl/MQTT/mqttlib.c:81-186 | for every remaining length up to 16383 the topic and QoS are recovered; the message is looked for where it starts if and only if it starts below 256, and then its length is recovered too; the id is looked for in its place if and only if the topic ends below 256, and then recovered |
| `MqttCodec.ShortTopicRoundTrip` | example/mqtt_ssl/MQTT/mqttlib.c:81-433 | for topics of at most 64 bytes, topic, message and id are always recovered |
| `MqttCodec.Subscribe` | example/mqtt_ssl/MQTT/mqttlib.c:451-491 | the packet sent is the subscribe packet of the topic with the next id, and the id advances |
| `MqttCodec.SubscribeRoundTrip` | example/mqtt_ssl/MQTT/mqttlib.c:451-491 | its length field, id, topic and options are where the standard puts them; the options ask for QoS 2 |
| `MqttCodec.AckId` | example/mqtt_ssl/MQTT/mqttlib.c:81-110 | an acknowledgement that echoes an id is read as that id |
| `MqttCodec.PacketsWritten` | example/mqtt_ssl/MQTT/mqttlib.c:350-491 | a publish packet and a subscribe packet byte by byte |
| `MqttSession.StepKeeps` | example/mqtt_ssl/MQTT/mqtt_api.c:108-444 | every message and every call keeps the invariant: five slots with valid flags, topics that fit, and no topic in two occupied slots |
| `MqttSession.HandleKeeps` | example/mqtt_ssl/MQTT/mqtt_api.c:108-236 | the same for the messages of the broker |
| `MqttSession.Run` | example/mqtt_ssl/MQTT/mqtt_api.c:108-444 | so it holds after every run of messages and calls |
| `MqttSession.LoginContinues` | example/mqtt_ssl/MQTT/mqtt_api.c:148-170 | during a login each acknowledgement moves exactly one slot on and starts the next, and the last one announces the connection |
| `MqttSession.LoginCompletes` | example/mqtt_ssl/MQTT/mqtt_api.c:125-170 | from a fresh login with any wanted topics, one accepting CONNACK and the acknowledgements of the issued ids leave every wanted slot subscribed and the others alone; successes are reported in slot order, the connection once and last, the session is open only then, and never is more than one slot being subscribed |
| `MqttSession.LoginSends` | example/mqtt_ssl/MQTT/mqtt_api.c:125-170 | a login asks for the wanted topics one at a time, in the order of the slots, the first when it is accepted and each other when the one before is acknowledged; their packets carry ids that count up, the last of which the slot being subscribed keeps |
| `MqttSession.ReconnectRestores` | example/mqtt_ssl/MQTT/mqtt_api.c:92-170 | after any run, once the session is closed, an accepting CONNACK and the acknowledgements leave every topic subscribed that was held when it closed, whatever its state was then, with the successes and then one announcement reported |
| `MqttSession.UnsubscribeCompletes` | example/mqtt_ssl/MQTT/mqtt_api.c:203-215 | in an open session, giving up a subscription sends one packet with the next id; its acknowledgement frees that slot and no other and reports the topic once, after which the topic can be subscribed again; the id must not be one that another slot waits for |
| `MqttSession.UnsubscribeDrops` | example/mqtt_ssl/MQTT/mqtt_api.c:370-406 | any other topic held is dropped at once, reported once, without a packet, and can be subscribed again |
| `MqttSession.PublishedIsReceived` | example/mqtt_ssl/MQTT/mqtt_api.c:172-196 | a message published with a topic of up to 64 bytes is delivered once as it was sent; for levels 1 and 2 its id is acknowledged once, for level 0 nothing is sent |
| `MqttSession.BrokerPackets` | example/mqtt_ssl/MQTT/mqtt_api.c:108-236 | the packets of the broker, byte by byte, are taken for what they are |
| `MqttSession.SubscribedExactly` | example/mqtt_ssl/MQTT/mqtt_api.c:331-368 | hfmqtt_sub fails exactly for a topic of more than 64 bytes, one that is held, or when all slots are taken, each with its number and without effect; in all other cases one free slot wants the topic |
| `MqttSession.UnsubscribedExactly` | example/mqtt_ssl/MQTT/mqtt_api.c:370-406 | hfmqtt_unsub fails exactly for a topic of more than 64 bytes or one that is not held, without effect |
| `MqttSession.StrayAcks` | example/mqtt_ssl/MQTT/mqtt_api.c:148-215 | an acknowledgement that no slot waits for changes nothing |
| `MqttSession.RefusedLoginCloses` | example/mqtt_ssl/MQTT/mqtt_api.c:141-145 | a refused login closes the session as a disconnection does: every topic held is wanted again, and nothing is sent or reported |
| `MqttSession.OnePendingKept` | example/mqtt_ssl/MQTT/mqtt_api.c:125-170 | over arbitrary steps, at most one slot stays in subscription if and only if the step is not an accepting CONNACK that comes while one slot is in subscription and another is wanted |
| `MqttSession.AcceptedTwice` | example/mqtt_ssl/MQTT/mqtt_api.c:125-146 | two accepting CONNACKs in a row reach such a state |
| `MqttSession.Client.constructor` | example/mqtt_ssl/MQTT/mqtt_api.c:238-256 | all slots free, nothing sent |
| `MqttSession.Client.GetIndex` | example/mqtt_ssl/MQTT/mqtt_api.c:42-54 | the lookup finds the first slot with the flag, or -1 |
| `MqttSession.Client.GetIndexById` | example/mqtt_ssl/MQTT/mqtt_api.c:56-68 | the lookup finds the first slot with the flag and the id, or -1 |
| `MqttSession.Client.SubscribeNext` | example/mqtt_ssl/MQTT/mqtt_api.c:129-170 | the next wanted topic is sent and marked, or the connection is announced |
| `MqttSession.Client.ResetSlots` | example/mqtt_ssl/MQTT/mqtt_api.c:92-106 | every occupied slot is wanted again and all ids are cleared |
| `MqttSession.Client.CloseSession` | example/mqtt_ssl/MQTT/mqtt_api.c:440-444 | the session is closed, topics kept |
| `MqttSession.Client.ParseMessage` | example/mqtt_ssl/MQTT/mqtt_api.c:108-236 | a packet in the buffer has the effect of the message it carries, for every type |
| `MqttSession.Client.SubackReceived` | example/mqtt_ssl/MQTT/mqtt_api.c:148-170 | the effect of SUBACK |
| `MqttSession.Client.UnsubackReceived` | example/mqtt_ssl/MQTT/mqtt_api.c:203-215 | the effect of UNSUBACK |
| `MqttSession.Client.PublishReceived` | example/mqtt_ssl/MQTT/mqtt_api.c:172-196 | topic and message are delivered and QoS 1 and 2 are acknowledged |
| `MqttSession.Client.SubscribeTopic` | example/mqtt_ssl/MQTT/mqtt_api.c:331-368 | oversize, repeated and surplus topics are refused with their error numbers and nothing changed; otherwise the first free slot wants the topic |
| `MqttSession.Client.UnsubscribeTopic` | example/mqtt_ssl/MQTT/mqtt_api.c:370-406 | an active subscription waits for UNSUBACK, any other is dropped at once, an unknown topic is refused |
| `Flash.PageProgramIsFlat` | example/spi/spi_eflash.c:413-465 | a page program that stays inside a page is a flat write |
| `Flash.FlatJoins` | example/spi/spi_eflash.c:413-465 | flat writes to adjoining ranges add up to one |
| `Flash.PlanInPages` | example/spi/spi_eflash.c:424-461 | no transaction crosses a page or is empty, for any address and size |
| `Flash.PlanIsFlat` | example/spi/spi_eflash.c:413-465 | after any number of transactions the memory is the flat write of the bytes done so far |
| `Flash.WholePlanIsFlat` | example/spi/spi_eflash.c:413-465 | for every range inside the flash the whole write is flat: the old cells AND the data on the range, unchanged elsewhere, although the device wraps inside a page |
| `Flash.ErasedHoldsData` | example/spi/spi_eflash.c:413-465 | written to an erased range inside the flash, the data is in the memory afterwards and nothing else has changed |
| `Flash.OnlyClears` | example/spi/spi_eflash.c:413-465 | no write turns a bit from 0 to 1, and writing the same again changes nothing |
| `Flash.AcceptedInside` | example/spi/spi_eflash.c:420-422 | what the range check lets through is inside the flash if and only if the 32-bit sum did not wrap |
| `Flash.WrappedRange` | example/spi/spi_eflash.c:420-422 | of the ranges that the check lets through, those whose 32-bit sum wrapped, and no others, send page programs to addresses outside the flash |
| `Flash.WrappedTwoBytes` | example/spi/spi_eflash.c:420-461 | such a range of two bytes |
| `Flash.PromptIsReady` | example/spi/spi_eflash.c:189-206 | a device that is never busy for more than a thousand polls is found ready |
| `Flash.Device.SendProgram` | example/spi/spi_eflash.c:427-450 | the page program of the device, byte by byte, with the wrap inside the page |
| `Flash.Device.Wait` | example/spi/spi_eflash.c:189-206 | at25_wait succeeds if and only if the device answers and is ready by the 1001st poll |
| `Flash.Device.WriteChunk` | example/spi/spi_eflash.c:425-460 | one turn: one transaction and the wait for its end |
| `Flash.Device.Write` | example/spi/spi_eflash.c:413-465 | at25_write carries out the plan, or the part of it before something went wrong; a refused range writes nothing; on a prompt device it succeeds if and only if the range check passes |
| `Smnt.CompleteIsAccepted` | thirdpartylib/JingDong/joylink_smnt/joylink_smnt.c:579-595 | a payload put together as the sender does is accepted, whatever lies behind it |
| `Smnt.OneWrongByteIsRejected` | thirdpartylib/JingDong/joylink_smnt/joylink_smnt.c:579-595 | a payload with one wrong byte other than its length is never accepted |
| `Smnt.FrameForCarries` | thirdpartylib/JingDong/joylink_smnt/joylink_smnt.c:295-312 | the frame a sender makes for a pair of bytes passes the parity check and carries that index |
| `Smnt.FrameSets` | thirdpartylib/JingDong/joylink_smnt/joylink_smnt.c:295-313 | a multicast frame in numbers: it sets two bytes exactly when the two upper bits of its first byte are the parity of the sum of the others and the six lower ones count a pair from 1 to 48, and then exactly those bytes |
| `Smnt.BeyondReach` | thirdpartylib/JingDong/joylink_smnt/joylink_smnt.c:302-316 | no run of frames of any kind changes the bytes from 96 on |
| `Smnt.BufferIsArrived` | thirdpartylib/JingDong/joylink_smnt/joylink_smnt.c:295-323 | after any multicast frames of one payload, in any order, repeated or lost, each of the 128 bytes of the buffer is that of the payload if it lies below 96 and its frame arrived, and the old one otherwise |
| `Smnt.SameFramesSameBuffer` | thirdpartylib/JingDong/joylink_smnt/joylink_smnt.c:295-323 | order and repetition make no difference to the buffer |
| `Smnt.AllArrivedIsAccepted` | thirdpartylib/JingDong/joylink_smnt/joylink_smnt.c:295-323 | once every frame has arrived at least once, the buffer holds the payload if and only if the payload has at most 96 bytes or its bytes from 96 on were in the buffer before; then the check accepts it, and a payload of 97 bytes is accepted only then |
| `Smnt.Deliverable` | thirdpartylib/JingDong/joylink_smnt/joylink_smnt.c:295-323 | some run of frames brings a payload into a buffer if and only if the bytes from 96 on are there already |
| `Smnt.SixBlocksAreLost` | thirdpartylib/JingDong/joylink_smnt/joylink_smnt.c:295-323 | a payload of 98 bytes, six cipher blocks with length and checksum, which the check would accept and no run of frames brings into the initial buffer |
| `Smnt.OnlyItsBlock` | thirdpartylib/JingDong/joylink_smnt/joylink_smnt.c:224-289 | whatever broadcast bytes arrive between two heads, and however many, only the block named by the first head can change |
| `Smnt.GroupIsRead` | thirdpartylib/JingDong/joylink_smnt/joylink_smnt.c:224-289 | a broadcast group in numbers: a head of eight times the number of a block plus the checksum of four bytes modulo 8 puts them into that block, as two bytes and two zeros when it is known to be the last; no other group changes anything, and the receiver is ready for the next |
| `Smnt.VersionIsRead` | thirdpartylib/JingDong/joylink_smnt/joylink_smnt.c:277-287 | the version is taken exactly from a group with number 0 whose head is the checksum of two bytes modulo 8 |
| `Smnt.DeliverSets` | thirdpartylib/JingDong/joylink_smnt/joylink_smnt.c:224-289 | a whole group sets its block, a short last group only once the length is known |
| `Smnt.GroupedBySize` | thirdpartylib/JingDong/joylink_smnt/joylink_smnt.c:237-244 | the payloads concerned are those whose size is not 3 modulo 4, or whose last byte is zero |
| `Smnt.BufferIsInPlace` | thirdpartylib/JingDong/joylink_smnt/joylink_smnt.c:224-289 | after any groups in any order, repeated or lost, the buffer holds exactly those in place: arrived, and for a short last one, arrived behind the first |
| `Smnt.GroupsArrivedIsAccepted` | thirdpartylib/JingDong/joylink_smnt/joylink_smnt.c:224-289 | once every group is in place, the buffer holds the payload and the check accepts it |
| `Smnt.Receiver.constructor` | thirdpartylib/JingDong/joylink_smnt/joylink_smnt.c:83-107 | both buffers are filled with 0xFF and the rest is zero |
| `Smnt.Receiver.PayloadCheck` | thirdpartylib/JingDong/joylink_smnt/joylink_smnt.c:579-595 | the check succeeds exactly on a plausible length with a matching checksum, and then hands over the length and the data, leaves the rest of encData alone, and writes the byte behind the 97 that are declared exactly for a length of 97 |
| `Smnt.Receiver.FirstSum` | thirdpartylib/JingDong/joylink_smnt/joylink_smnt.c:581 | the checksum is taken, before the length is judged, over as many bytes as an eight-bit argument of the length plus one says, and needs exactly those bytes in memory |
| `Smnt.ChecksumLeavesBuffer` | thirdpartylib/JingDong/joylink_smnt/joylink_smnt.c:581 | these bytes leave the buffer of 128 if and only if the length byte is between 127 and 254 |
| `Smnt.LongestIsAccepted` | thirdpartylib/JingDong/joylink_smnt/joylink_smnt.c:579-595 | a payload with a length of 97 that the check accepts |
| `Smnt.AcceptedLengths` | thirdpartylib/JingDong/joylink_smnt/joylink_smnt.c:579-583 | some buffer with a given length byte is accepted exactly for the lengths from 7 to 97 |
| `Smnt.Receiver.MulticastAdd` | thirdpartylib/JingDong/joylink_smnt/joylink_smnt.c:295-323 | one frame has its effect on the multicast buffer only, and finishes exactly when the check then accepts |
| `Smnt.Receiver.FinishGroup` | thirdpartylib/JingDong/joylink_smnt/joylink_smnt.c:246-276 | a complete group with good checksum bits is written to its block and checked |
| `Smnt.Receiver.BroadcastAdd` | thirdpartylib/JingDong/joylink_smnt/joylink_smnt.c:224-289 | one head or byte has its effect on the group and the broadcast buffer only, takes the version from a group with number zero and good checksum bits, and finishes exactly when a completed group makes the check accept |

## Left out

- JsonParser.ParseWithOptions: strings with malformed escapes (a \u without four hexadecimal digits, a backslash at the end) are excluded, because the C code then steps over the closing quote or the terminator.
- JsonScanner.ScanNumber: the value is exact over the reals; the rounding of doubles is not modelled.
- JsonPrinter.PrintValue: numbers that are not 32-bit integers, strings without text and members without names are excluded.
- JsonMinify.Minify: a text left open in a block comment or a literal is excluded, because the C code then runs past the terminator.
- JsonHeap.Delete: frees are logged for nodes only; the strings of a node are values of the model, and so are the copies that cJSON_Duplicate makes of them.
- JsonHeap.AddItemToArray: the item added is taken to be in no chain yet; the code would append what follows it as well.
- JsonHeap.ReplaceItemInArray: the deletion of the node replaced is the caller's, on the node handed back.
- JsonRoundTrip.RoundTrip: a number at the top level needs a follower that does not continue it, as the end of the text is.
- cJSON: failing allocations, references, the functions that create nodes, and the string part of adding and replacing by name.
- AesModes.XorBuf: the branch that combines whole words; the register and tmp are kept as bytes.
- AesModes.DeviceAesEncrypt: keys of other lengths, whose error the code ignores and then encrypts under a context that was never set.
- AesModes.DeviceAesDecrypt: an empty input, for which the code reads the byte before its output.
- Md5.Context.Update: calls with 2^32 - 64 bytes or more, where the loop counter wraps.
- JsmnArray.Parser.Parse: counting without a token array, and texts of 32768 characters or more, whose positions do not fit.
- JsonGenerator.Writer.Push: a call on an empty text, where the look-back reads in front of the buffer.
- JsonGenerator.Writer.StartArray: a call on an empty text, where the look-back reads in front of the buffer.
- JsonGenerator.Writer.SetArrayValue: a call on an empty text, where the search for the start reads on behind the buffer.
- JsonGenerator.Writer.SetObjectValue: a call on an empty text, likewise; JSON_VAL_OBJ; and printing of floats when it is configured; otherwise floats print as a fixed text, as here.
- MqttCodec.PublishWithQos: a failing allocation.
- MqttCodec.Subscribe: topics of more than 121 bytes, which do not fit the buffer of 128.
- MqttSession.Client.ParseMessage: packets that are cut off, or whose topic or message does not fit the buffers they are copied to; callbacks are a log of events, and a failing allocation is left out.
- MqttSession.Client.UnsubscribeTopic: the bytes of the unsubscribe packet, whose length field is fixed; only the id it takes is kept. Acknowledgements of messages are logged by their id.
- MQTT: connecting, pinging and disconnecting, and the result of sending, which the session ignores.
- Flash.Device.Write: the protocol below a transaction, the waiting time, and the program error bit beyond its being reported; a device that fails in a transaction is taken to have programmed nothing.
- Flash: erasing, reading, quad mode and the status register.
- Smnt.OnlyItsBlock: a group that loses some of its bytes is confined to its block, but may be written there when three checksum bits agree by chance.
- Smnt.Receiver.BroadcastAdd: the probabilities that hold a channel.
- Smnt.GroupsArrivedIsAccepted: payloads of 3 modulo 4 bytes whose last byte is not zero, whose last group is cut after two bytes once the length is known; what becomes of them depends on how many bytes the sender goes on to send.
- Smnt: the choice of channels, the recognition of senders, and the decryption of the result.
- Sockets, TLS, threads, timers, the functions of the SDK and the code of the application.
