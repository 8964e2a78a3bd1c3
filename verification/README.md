# A verified model of the fax stack's core

This project models the hard parts of an ISDN fax stack in Dafny and proves what they are meant for: the
Modified Huffman to SFF converter (ITU-T T.4 section 4.1; SFF after Annex B of COMMON-ISDN-API 2.0), the
marshaller of CAPI structs (chapter 6 of COMMON-ISDN-API 2.0 Part I), the CAPI channel with its message layer
(chapters 5 and 7), the handles of outstanding data blocks and the transfer channel above them, the timer list,
the lists of called numbers, the byte queue and the configuration parser. `dafny verify dfyconfig.toml` checks
everything.

Where the program changes objects in place, the model has a class whose methods do the same steps. Their
contracts tie the new state to a function of the old one, and lemmas prove what the program promises about that
function: over every input, every run, or every interleaving.

| part | files |
|---|---|
| code tables | `HufTree`, `HufTables`, `HufCodes`, `T4`, `T4Tables`, `T4Lines` |
| converter and its ring | `HufMachine`, `HufLine`, `HufPage`, `HufBound`, `HufRoom`, `SffStream`, `DataQueue`, `Huf2Sff` |
| fax documents | `FaxFill`, `FaxMarks`, `FaxOverflow`, `FaxDocument`, `FaxRoom`, `FaxPages`, `FaxSend` |
| struct marshaller | `CCStruct`, `CCStructSize`, `CCStructParse`, `CCStructConvey`, `CCStructRoundTrip`, `CCStructBounds`, `CCStructBuffer` |
| CAPI channel | `CapiChan`, `CapiLedger`, `CapiB3Ledger`, `CapiRelease`, `CapiWire`, `CapiB3Wire`, `CapiTold`, `CapiTimer`, `CapiCounts`, `CapiChannel` |
| message layer | `DynStore`, `PutQueue`, `MsgBase` |
| data transfer | `DataHand`, `Transfer`, `TransferLedger` |
| timers, numbers, bytes | `TimerWalk`, `TimerList`, `MSNList`, `MSNOrder`, `ByteQueue` |
| configuration | `LineParser`, `LineTokens`, `ConfigParser`, `ConfigLists` |
| common | `Options`, `Sequences`, `Bits`, `Memory` |

## What the proofs brought to light

The model follows the code. Where a property one would expect does not hold, a lemma gives the exact condition
or the failing family:

- The size pass of `CCStruct` does not step its data pointer over an I_nn gap, so a pointer operator behind a gap
  is read from the wrong place: sizing is defined exactly on structs without that (`SizePass`). The B3
  configuration for fax group 3 is one with it (`FaxConfigurationMissized`), but nothing in the repository makes an
  object of its class, `cp_b3configuration_all`.
- Fax bytes are lost when a chunk writes more than the 2048 bytes that the converter keeps free in its ring, and only
  then (`LosesNothingExactly`). A chunk of at most 1000 bytes never does if and only if at most 4932 bits of a line are
  pending when it comes: for every larger number there is a page, coded with the program's own tables, and a chunk that
  writes too much (`HeadroomExactly`). A page whose lines have at most 4922 code bits, read in pieces of at most 1000
  bytes, loses nothing (`RawPageFits`), while a dense line of 1728 dots can have 7776.
- The line buffer of 8192 bytes is not guarded. It is written behind its end if and only if a line has more than 65532
  code bits (`LinesFitExactly`, `LineOverflows`), as one of the tables' own codes can (`LongLineOverflows`).
- Between pages only the page header is written; the converter keeps what it has recorded. So every page behind the
  first begins with the record of an empty line, made of the padding of the page before and of its own first
  end-of-line code (`DocumentConverts`).
- Z_nn operators do not reduce the remaining length while parsing, so the pointer ends too far by their sum, those of
  nested structs included (`PointerLaw`, `MessagePointerLaw`). Raw data that owns a block already is copied at its
  preset length without a look at what is left, or, with a length byte, at the declared length without a look at the
  block. So a format can be parsed with no access outside the bytes given, whatever these are, if and only if nothing is
  read behind a Z_nn operator, or behind a struct that has one, and no raw data has a preset length, but for one byte
  of raw data without a length byte (`StaysInsideExactly`). For every other format there is an input that strays
  (`Strays`), and for raw data it is known which do (`RawStraysExactly`). Both bodies of DATA_B3 messages stray. Where
  pointers have 64 bits (src/capi/CCSMesg.h:84), a body of 14 to 17 bytes is read behind its end instead of being
  refused (`DataB3Exactly`); otherwise (src/capi/CCSMesg.h:99-108) one of 1 to 9 bytes is (`DataB3RawExactly`).
- A registration that fails while a release is pending is not followed by the release (`ReleaseBeginsUnlessFailed`),
  and then no conforming input but the end of a release, or a further result of a registration, changes that
  (`StaysReleasing`). A conforming run leads there (`FailsWhileReleasing`), but it needs a second thread: a failed
  registration is reported from inside the call that registers (src/linuxdep/CapiBase.cpp:76), so that the release
  has to come from another thread meanwhile.
- The answer to a DISCONNECT_B3_IND is lost by exactly these steps: the indication is taken while the connection is
  already being given up, or, before the application answers, the connection is given up fast or the application is
  released, as a failed DISCONNECT_CONF does too (`AnsweredUnlessLost`, `RunB3`). There is a conforming run for each
  (`LostInDisconnect`, `LostByFastDisconnect`, `LostByRelease`), from a state that calls lead to (`CallConnects`).
- The timer of a call that is given up before its CONNECT_CONF is not stopped when that confirmation fails
  (`EndStopsTimer`). It runs on into the next call and hangs that up (`TimerOutlivesCall`).
- A failed CONNECT_B3_CONF makes the channel send DISCONNECT_REQ and stay in its connected state; that is why the
  phase of its connection may be ahead of its state (`RunAgrees`).
- `Disconnect` stores 2 and 4 in the status for its two waiting kinds, which are not the bits that are looked at
  later. So the kind documented as "without new PutData's" (src/capi/Channel.h:36) lets more data in, the kind
  documented as "with new PutData's" (src/capi/Channel.h:37) refuses it, and the confirmation of the last block
  never hangs up (`WaitKindsAreSwapped`, `WaitingDisconnectIsLost`).
- `Notify` of the timer list goes on with the timer that was next before the callback. It fires the timers it should,
  those due without those that an earlier callback arms or cancels, if and only if no callback cancels the next one and
  none arms it while others are still to fire (`FiresWhatIsMeant`). A next timer that is armed ends the walk
  (`ArmingTheNextEndsTheWalk`). One that is cancelled fires all the same (`CancelledNextFires`), and what the callback
  armed before its place is then lost from the list (`ArmedTimerIsLost`).
- The early cancellation of the search for a dialled number misses no entry if the entries are in the order in which
  their first numbers are dialled (`DialOrderSuffices`), and when no number can match two entries, only then
  (`ExhaustiveExactly`). Entries of one length are (`ScanIsExhaustive`); the list sorts by length first, so with mixed
  lengths an entry can be missed behind a shorter one (`MixedLengthsMiss`).
- The configuration parser uses a value that does not exist if and only if some word is a range sign, the words
  before it are free of errors, the last name or assignment sign among them is an assignment sign, and no name stands
  behind the last bracket (`UndefinedList`). The line `a:{-` is one such (`UndefinedLine`); there is always a text and
  behind it a bracket (`DanglesBehindBracket`).

## Model

| member | source | states |
|---|---|---|
| `HufTables.TablesWellFormed` | src/convert/hufman.h:28-458 | both 212-node tables are prefix trees with indices in range, the end-of-line leaf after exactly eleven zeros, codes with at most seven leading and three trailing zeros |
| `T4Tables.CodesAreT4` | src/convert/hufman.h:28-458 | the code words that the program's white and black trees hold are exactly those of ITU-T T.4, tables 2, 3a and 3b: a bit string is one if and only if it is the code word of a run, and it stands for that run |
| `T4Lines.RunsAreALine` | src/convert/hufman.h:28-458 | a line of any runs, coded as T.4 says with make-up and terminating codes, is a line of the program's trees, as wide as its dots, and its code words give the runs back |
| `T4Lines.RunsConvert` | src/convert/huf2sff.cpp:294-353 | such a line is converted: its dots are counted, and its code bits and fill are the one record |
| `T4Lines.PagesDiffer` | src/convert/huf2sff.cpp:294-353 | two pages of dots with the same coded bits are the same page |
| `HufCodes.LabelLeads` | src/convert/huf2sff.cpp:312-337 | in any node array with labels that agree with its links, the bits of a node's label lead from the root to it |
| `HufTree.CodesArePrefixFree` | src/convert/huf2sff.cpp:312-337 | a walk from the root reads at most one code word: no proper prefix of one is one, in any node array |
| `HufTree.AtMostSevenLeadingZeros` | src/convert/hufman.h:28-458 | in any well-formed tree a code word that goes on below zeros only goes on at most seven zeros below the root |
| `HufMachine.StepKeeps` | src/convert/huf2sff.cpp:294-353 | every bit keeps the invariant, writes at most one record, writes a line only on a zero after ten recorded bits, and begins a page only once |
| `HufMachine.RecordBitAppends` | src/convert/huf2sff.cpp:300-310 | the recorded line, unpacked lowest bit first, is the bits that came, in order |
| `HufMachine.RunReadsBack` | src/convert/huf2sff.cpp:294-353 | for any bits whose lines fit the line buffer, a reader splits the output into exactly the records written |
| `SffStream.ReadEncoded` | src/convert/huf2sff.cpp:90-143 | record headers (length 1 to 216, escape 0 with a word, 254 for pages and end) are unambiguous for every record list |
| `HufLine.RunCode` | src/convert/huf2sff.cpp:294-353 | a code word of any well-formed tree is recorded whole, adds its run, never counts eleven zeros and leaves at most three |
| `HufLine.LineConverts` | src/convert/huf2sff.cpp:294-353 | any line of alternating code words, any fill and EOL from the fresh state: zero counter below eleven inside, one record, payload the code bits and four to eleven zeros, fresh state again |
| `HufLine.LinesConvert` | src/convert/huf2sff.cpp:294-353 | the same for any number of lines: one record each, in order |
| `HufPage.DecodesUniquely` | src/convert/huf2sff.cpp:294-353 | for any well-formed trees, two lists of coded lines with the same bits are the same lines: code words, fill and number |
| `HufPage.PageConverts` | src/convert/huf2sff.cpp:294-353 | from the opened state on: fill, the first end-of-line code, any lines and up to ten padding zeros give the page start and one record a line, in order |
| `HufBound.RunBound` | src/convert/huf2sff.cpp:294-353 | over any run the records cost 3 bytes for 17 bits, and what is left over is nothing or at least two seventeenths of a byte |
| `HufBound.ExpansionBound` | src/convert/huf2sff.cpp:294-353 | at most 3 bytes of records for 17 bits, counting the recorded ones and one more, and one page header at most |
| `HufRoom.RoomForLines` | src/convert/huf2sff.cpp:294-353 | 1000 bytes of bits, behind at most 4932 recorded ones, make at most 2030 bytes of line records |
| `HufRoom.PageWithin` | src/convert/huf2sff.cpp:294-353 | while a page of lines with a bounded number of code bits is converted, never more than ten bits above that are recorded |
| `HufRoom.LinesFitExactly` | src/convert/huf2sff.cpp:300-310 | the lines of a page fit the line buffer if and only if none has more than 65532 code bits |
| `HufRoom.LineOverflows` | src/convert/huf2sff.cpp:300-310 | a longer line is written behind the line buffer, by any well-formed tree |
| `DataQueue.OfferAppend` | src/convert/huf2sff.cpp:251-275 | offering two strings to a ring in turn is offering their concatenation, also when it overflows |
| `DataQueue.BetweenWrap` | src/convert/huf2sff.cpp:251-275 | two copies across the ring's end append their bytes to the waiting ones |
| `DataQueue.BetweenSkip` | src/convert/huf2sff.cpp:184-212 | reading on, also across the ring's end, takes the first bytes and leaves the others |
| `DataQueue.Queue.Enq` | src/convert/huf2sff.cpp:251-275 | the ring keeps as many leading bytes as fit and returns their number |
| `DataQueue.Queue.Enq1` | src/convert/huf2sff.cpp:280-289 | one byte is appended or dropped as Enq would |
| `DataQueue.Queue.Get` | src/convert/huf2sff.cpp:184-212 | what is taken and what stays make up what was waiting |
| `DataQueue.Queue.Fill` | src/convert/huf2sff.cpp:214-216 | the number of waiting bytes |
| `Huf2Sff.Filter.Open` | src/convert/huf2sff.cpp:90-112 | the state is that of a new document and the ring holds the file header |
| `Huf2Sff.Filter.PutPageHeader` | src/convert/huf2sff.cpp:125-143 | the page start or document end record is offered to the ring |
| `Huf2Sff.Filter.HufmanInit` | src/convert/huf2sff.cpp:234-246 | the fields are those of the fresh state |
| `Huf2Sff.Filter.PutLine` | src/convert/huf2sff.cpp:314-324 | the line record is offered with the short or the escaped length |
| `Huf2Sff.Filter.WalkBit` | src/convert/huf2sff.cpp:312-337 | the tree walk's fields and its record, if the bit ends the line |
| `Huf2Sff.Filter.CountBit` | src/convert/huf2sff.cpp:340-352 | the zero counter's fields, and the page start at the first EOL |
| `Huf2Sff.Filter.HufTstBit` | src/convert/huf2sff.cpp:294-353 | the field updates are one step of the machine, and its records are offered to the ring |
| `Huf2Sff.Filter.PutChar` | src/convert/huf2sff.cpp:148-179 | a byte is the run of its eight bits, lowest first |
| `FaxFill.LosesNothingExactly` | src/convert/BasicFax.cpp:582-674 | a chunk loses no byte, whatever waits in a ring less than half full, if and only if it writes at most 2048 bytes |
| `FaxFill.ChunkBound` | src/convert/BasicFax.cpp:582-674 | a chunk of at most 1000 bytes that comes with at most 4932 bits of a line pending never writes more than the 2048 bytes kept free |
| `FaxOverflow.HeadroomExactly` | src/convert/BasicFax.cpp:582-674 | for the program's tables: all chunks of at most 1000 bytes fit after every page with this number of bits pending, if and only if the number is at most 4932 |
| `FaxOverflow.LongLineOverflows` | src/convert/huf2sff.cpp:300-310 | for every number of code bits above 65532 a line of the program's tables that overflows the line buffer |
| `FaxFill.FaxConversion.PutChunk` | src/convert/BasicFax.cpp:610-612 | a chunk's bytes in order are one run |
| `FaxFill.FaxConversion.TakeChunk` | src/convert/BasicFax.cpp:582-674 | one chunk's records are offered to the ring, its pages counted, and the end of the last file noted |
| `FaxFill.FaxConversion.FinishChunk` | src/convert/BasicFax.cpp:613-673 | what a page's, a file's or the last page's end writes and counts |
| `FaxFill.FaxConversion.FillSffFilter` | src/convert/BasicFax.cpp:582-674 | the loop offers the records of the chunks it takes, whatever their size; if they fit no byte is dropped; it stops when half the ring is full or the last file ends, and counts pages and end |
| `FaxFill.FaxConversion.OpenSend` | src/convert/BasicFax.cpp:244-301 | a new document: cleared state, the file header in the ring, nothing counted |
| `FaxFill.FaxConversion.SendSFF` | src/convert/BasicFax.cpp:336-368 | the bytes handed out and those that wait are what the ring kept of what waited and the records of the chunks taken, which is all if these fit; finished exactly when the last file has ended and nothing waits; a block of room is empty only at the end |
| `FaxMarks.MarksExactly` | src/convert/BasicFax.cpp:582-674 | for every list of chunks and any bits in them: the page starts and document ends in the records are one start for the first end-of-line code, at its place, one for each end of a page or file, each with the resolution last reported, or that of the opening, and the document's end for each last page only |
| `FaxPages.DocumentConverts` | src/convert/BasicFax.cpp:582-674 | a document of any pages and files, each with its resolution and read in any pieces: page by page the start and one record for each line, the empty one in front of every later page included, and the end at last |
| `FaxSend.DocumentFits` | src/convert/BasicFax.cpp:582-674 | such a document with at most 4922 code bits a line, read in pieces of at most 1000 bytes, fits ring and line buffer in every chunk |
| `FaxSend.SendPages` | src/faxsend/faxsend.cpp:635-690 | it is sent as a file from which a reader gets just that, and enough blocks finish it |
| `FaxDocument.SendDocument` | src/faxsend/faxsend.cpp:635-690 | a document sent in blocks of any sizes: once it is finished the blocks in a row are the file, which a reader splits into the header and exactly the records of all chunks, in order; if the last file ends in the chunks, more blocks of positive size than bytes finish it |
| `FaxDocument.PageRun` | src/convert/BasicFax.cpp:592-612 | a page of a document converts alike in whatever pieces it is read |
| `FaxDocument.PiecesDoNotMatter` | src/convert/BasicFax.cpp:592-612 | the pieces in which a raw file is read make no difference |
| `FaxDocument.G3Document` | src/convert/BasicFax.cpp:582-674 | a raw G3 page, read in any pieces, becomes a file of one page start, one record for each line with its code bits, and the document's end |
| `FaxRoom.RawPageFits` | src/convert/BasicFax.cpp:582-674 | a raw page of lines with at most 4922 code bits, read in pieces of at most 1000 bytes, fits ring and line buffer in every chunk |
| `FaxRoom.SendRawPage` | src/faxsend/faxsend.cpp:635-690 | such a page is sent as a file of one page start, one record for each line and the document's end, and enough blocks finish it |
| `CCStructSize.SizePass` | src/capi/CCStruct.cpp:218-506 | after a reset, sizing is defined exactly when no pointer operator follows a gap; then it is the number of bytes written, every cached length is the announced one, values are unchanged and a second call agrees |
| `CCStructSize.ReadySize` | src/capi/CCStruct.cpp:218-380 | with lengths cached before, at any depth and exact, sizing returns the number of bytes written all the same |
| `CCStructRoundTrip.RoundTrip` | src/capi/CCStruct.cpp:599-653 | parsing what was written into a fresh struct of the same format restores every value, nested structs over 254 bytes included, and consumes exactly the bytes written |
| `CCStructRoundTrip.MessageRoundTrip` | src/capi/CCStruct.cpp:599-653 | the same for a message body without a length, with unknown bytes behind it |
| `CCStructRoundTrip.SizedRoundTrip` | src/capi/CCStruct.cpp:218-541 | reset, size, write and parse: any tidy struct survives |
| `CCStructConvey.Conveys` | src/capi/CCStruct.cpp:512-653 | what a struct wrote, null pointers to structs and strings included, is read into any new struct that can receive it: every value arrives, a null struct as the cleared one, later fields are where they should be, and exactly the bytes written are consumed |
| `CCStructConvey.MessageConveys` | src/capi/CCStruct.cpp:599-653 | the same for a message body without a length, with unknown bytes behind it |
| `CCStructConvey.ListsConvey` | src/capi/CCStruct.cpp:659-841 | the same for writers with lists and repetitions of structs, which the reader has one by one |
| `CCStructConvey.UnrolledWrites` | src/capi/CCStruct.cpp:659-841 | a list or a repetition writes what its structs one by one would, as long as no null pointer is repeated |
| `CCStructConvey.AbsentConveyed` | src/capi/CCStruct.cpp:599-653 | a length byte zero clears the reader and takes one byte |
| `CCStructConvey.NothingConveyed` | src/capi/CCStruct.cpp:75-212 | of fields with nothing written, the cleared reader has the values |
| `CCStructConvey.StructSkipped` | src/capi/CCStruct.cpp:847-1149 | a placeholder for a struct skips one that is there, or a null one, by its bytes |
| `CCStructConvey.MessageLength` | src/capi/CCStruct.cpp:512-541 | the length word of a whole message counts the message, itself included |
| `CCStructRoundTrip.SameWrites` | src/capi/CCStruct.cpp:512-841 | structs of equal value are written alike |
| `CCStructBounds.PointerLaw` | src/capi/CCStruct.cpp:599-653 | for every struct with a length, nested Z_nn operators included: the count falls by prefix and declared length, unknown trailing bytes included, and the pointer is further by what the Z_nn operators met on the way add up to |
| `CCStructBounds.MessagePointerLaw` | src/capi/CCStruct.h:257-265 | the same for message bodies, which take the whole count, or their preset length if they are raw data |
| `CCStructBounds.StaysInside` | src/capi/CCStruct.cpp:599-1149 | a struct or message body of a safe format, raw data with a preset length included, is parsed without reading outside it, whatever the input |
| `CCStructBounds.Strays` | src/capi/CCStruct.cpp:599-1081 | for every format that is not safe, an input that is read behind its end |
| `CCStructBounds.StaysInsideExactly` | src/capi/CCStruct.cpp:599-1149 | no input strays if and only if, at every depth, nothing is read behind a Z_nn operator or a struct that has one, and no raw data has a preset length, but for one byte without a length byte |
| `CCStructBounds.RawStraysExactly` | src/capi/CCStruct.cpp:599-653 | raw data with a preset length strays exactly when less is left, or, with a length byte, when more is declared than its block holds |
| `CCStructBounds.DataB3Exactly` | src/capi/CCSMesg.h:81-95 | the 64-bit DATA_B3 body: refused below 14 bytes, read behind its end from 14 to 17, read rightly from 18 on |
| `CCStructBounds.DataB3RawExactly` | src/capi/CCSMesg.h:99-108 | the 32-bit DATA_B3 body: refused when empty, read behind its end from 1 to 9 bytes, read rightly from 10 on |
| `CCStructRoundTrip.FaxConfigurationMissized` | src/capi/CCStruct.cpp:218-380 | the format of the fax group 3 configuration (src/capi/CCSParam.h:330, a class that nothing instantiates) is sized from wrong memory |
| `CCStructBuffer.Cursor.FillBuffer` | src/capi/CCStruct.cpp:512-541 | the loops put exactly the struct's bytes at the pointer, leave all other memory and advance by their number |
| `CCStructBuffer.Cursor.FillAll` | src/capi/CCStruct.cpp:659-841 | the loop over the format writes the fields one behind the other |
| `CCStructBuffer.Cursor.FillItems` | src/capi/CCStruct.cpp:659-841 | the loop over an array's structs |
| `CCStructBuffer.Cursor.FillRepeated` | src/capi/CCStruct.cpp:659-841 | the loop that writes one struct several times |
| `CCStructBuffer.Cursor.PutParams` | src/capi/CapiMsg.cpp:261-272 | parameters are written only if they fit the message, and nothing outside it is touched |
| `CCStructBuffer.Cursor.ParseBuffer` | src/capi/CCStruct.cpp:599-653 | the walk over the buffer computes the specified parse and pointer |
| `CCStructBuffer.Cursor.ParseData` | src/capi/CCStruct.cpp:847-1149 | the same for the loop over the format |
| `CCStructBuffer.Cursor.ReadLength` | src/capi/CCStruct.cpp:599-653 | the length byte or its escape, refused when it exceeds what is left |
| `CCStructBuffer.Cursor.ParseField` | src/capi/CCStruct.cpp:847-1149 | one operator, nested structs included |
| `CapiLedger.RunFits` | src/capi/CapiChan.cpp:158-742 | every run of a conforming CAPI keeps PLCI, NCCI, controller and initiator as the state demands |
| `CapiLedger.NextFits` | src/capi/CapiChan.cpp:158-742 | one call, confirmation, indication or timer expiry keeps it, with any calls from within a callback |
| `CapiLedger.RunBooked` | src/capi/CapiMsg.cpp:504-601 | over every run: CONNECT_ACTIVE_IND, CONNECT_B3_IND and CONNECT_B3_ACTIVE_IND each answered exactly as often as they came, CONNECT_IND at most once |
| `CapiLedger.RunOwes` | src/capi/CapiChan.cpp:355-379 | a DISCONNECT_RESP is owed exactly while in D_DisconnectRespPending, until answered or released |
| `CapiLedger.RunDisciplined` | src/capi/CapiChan.cpp:608-627 | CONNECT_B3_REQ at most once for an outgoing call and never for an incoming one |
| `CapiLedger.StaysInOrder` | src/capi/CapiChan.cpp:158-742 | the three ledgers together, for the whole log of a channel: a conforming run keeps it in order, whatever came before |
| `CapiRelease.FailsWhileReleasing` | src/capi/CapiChan.cpp:386-400 | a conforming run from a new channel to a registration that fails while the release is pending |
| `CapiRelease.ReleaseBeginsUnlessFailed` | src/capi/CapiChan.cpp:386-400 | in every Releasing state the release is asked for if and only if the registration did not fail |
| `CapiRelease.StaysReleasing` | src/capi/CapiChan.cpp:158-188 | no conforming run without the end of a release leaves Releasing, and without a further registration result none is asked for |
| `CapiB3Ledger.RunB3` | src/capi/CapiChan.cpp:355-379 | over every conforming run, whenever the application answers: of the DISCONNECT_B3_INDs of an NCCI those are unanswered that are owed and those that a losing step lost |
| `CapiB3Ledger.AnsweredUnlessLost` | src/capi/CapiChan.cpp:670-687 | every indication is answered, but the one owed, if and only if no step of the run loses an answer |
| `CapiB3Ledger.LostInDisconnect` | src/capi/CapiChan.cpp:670-687 | a run: the indication comes while the connection is being given up |
| `CapiB3Ledger.LostByFastDisconnect` | src/capi/CapiChan.cpp:231-301 | a run: a fast disconnect before the answer |
| `CapiB3Ledger.LostByRelease` | src/capi/CapiChan.cpp:158-188 | a run: a release before the answer |
| `CapiB3Ledger.CallConnects` | src/capi/CapiChan.cpp:467-657 | a conforming run from a new channel to a connected one, for any controller and connection |
| `CapiWire.RunAgrees` | src/capi/CapiChan.cpp:158-742 | over every run in which the CAPI keeps to the PLCI's state diagram, for every PLCI: the channel sends nothing that the phase read off the messages does not allow, and that phase is the one that its state says; so what it gives up it has told the line, and a connection that is not its own is cleared |
| `CapiWire.RunAsks` | src/capi/CapiChan.cpp:608-628 | over every such run: CONNECT_B3_REQs for a PLCI are exactly as many as CONNECT_ACTIVE_INDs taken for a call of our own whose callback leaves the channel connected |
| `CapiB3Wire.RunAgreesB3` | src/capi/CapiChan.cpp:213-687 | the same for every NCCI and its diagram: data only while the connection is up, no other connection accepted, and the phase is the one that the state says |
| `CapiB3Wire.ConnectingRunAllowed` | src/capi/CapiChan.cpp:467-657 | both diagrams allow the run from a new channel to a connected one, whose CONNECT_B3_CONF answers a request |
| `CapiB3Wire.LossesAllowed` | src/capi/CapiChan.cpp:158-301 | both diagrams allow the runs that lose an answer |
| `CapiTold.RunKnows` | src/capi/CapiChan.cpp:136-742 | over every such run: the callbacks of a call follow on each other, each in the states it belongs to, and a call that is over has been reported as over, before the end of a release is, unless the application has refused it or asked for the release |
| `CapiTold.NewChannel` | src/capi/CapiChan.cpp:136-742 | from a new channel on, for every PLCI and NCCI: the phases, the requests for a B channel, the callbacks and the timer together |
| `CapiTimer.RunWatched` | src/capi/CapiChan.cpp:231-657 | over every such run: the timer runs while a connection is given up, while the B channel comes up, and while a limited call of our own rings; it does not run while connected or released |
| `CapiTimer.Expires` | src/capi/CapiChan.cpp:31-56 | an expiry gives up the call that waits, or releases one that was given up |
| `CapiTimer.EndStopsTimer` | src/capi/CapiChan.cpp:467-505 | the step that ends a call stops the timer unless it is a failed CONNECT_CONF or the application's refusal; after a call given up before its confirmation the timer runs |
| `CapiTimer.TimerOutlivesCall` | src/capi/CapiChan.cpp:467-505 | a run that the diagram allows, in which that timer hangs up the next call |
| `CapiCounts.RunCounts` | src/capi/CapiChan.cpp:136-735 | over every run, for every connection and handle: DATA_B3_REQ, DATA_B3_RESP and the callbacks of data and confirmations, the alert, answers to information, and what begins and reports a registration come exactly as often as calls and messages in the states they need |
| `CapiChannel.Channel.SetState` | src/capi/CapiChan.h:213-215 | test and set |
| `CapiChannel.Channel.Register` | src/capi/CapiChan.cpp:136-151 | registers from Released only |
| `CapiChannel.Channel.ConnectReq` | src/capi/CapiChan.cpp:195-207 | sent, and reported as done, from Registered only |
| `CapiChannel.Channel.DataB3Req` | src/capi/CapiChan.cpp:213-224 | a message while connected, else the confirmation at once |
| `CapiChannel.Channel.SelectBProtocolReq` | src/capi/CapiChan.h:189-200 | sent from the connected state only |
| `CapiChannel.Channel.Release` | src/capi/CapiChan.cpp:158-188 | the fields, messages and callbacks of one step |
| `CapiChannel.Channel.DisconnectReq` | src/capi/CapiChan.cpp:231-301 | the fields, messages and callbacks of one step, in each of the states |
| `CapiChannel.Channel.ConnectResp` | src/capi/CapiChan.cpp:308-331 | the answer is sent only while the call waits for it; refusal clears the channel |
| `CapiChannel.Channel.DisconnectB3Resp` | src/capi/CapiChan.cpp:355-379 | both endings of the B channel |
| `CapiChannel.Channel.REGISTER_COMPLETE` | src/capi/CapiChan.cpp:386-425 | the step of a registration's result |
| `CapiChannel.Channel.RELEASE_COMPLETE` | src/capi/CapiChan.cpp:432-460 | the step of a release's end |
| `CapiChannel.Channel.CONNECT_CONF` | src/capi/CapiChan.cpp:467-505 | the step of a confirmed or failed CONNECT_REQ |
| `CapiChannel.Channel.CONNECT_B3_CONF` | src/capi/CapiChan.cpp:507-521 | the step of a confirmed CONNECT_B3_REQ |
| `CapiChannel.Channel.DATA_B3_CONF` | src/capi/CapiChan.cpp:523-535 | handed on, or the foreign connection is given up |
| `CapiChannel.Channel.DISCONNECT_B3_CONF` | src/capi/CapiChan.cpp:537-550 | a failure, or a foreign connection, ends the call |
| `CapiChannel.Channel.DISCONNECT_CONF` | src/capi/CapiChan.cpp:552-565 | a failure releases |
| `CapiChannel.Channel.SELECT_B_PROTOCOL_CONF` | src/capi/CapiChan.cpp:572-581 | does not lead back to the connected state |
| `CapiChannel.Channel.HandleIndication` | src/capi/CapiMsg.cpp:504-601 | the channel's handler, and the base class's answer when it refuses |
| `CapiChannel.Channel.CONNECT_ACTIVE_IND` | src/capi/CapiChan.cpp:608-628 | the handler with any calls of the application from within its callback |
| `CapiChannel.Channel.CONNECT_IND` | src/capi/CapiChan.cpp:593-606 | taken from Registered only |
| `CapiChannel.Channel.CONNECT_B3_IND` | src/capi/CapiChan.cpp:630-642 | taken and accepted from the connected state of its call only |
| `CapiChannel.Channel.CONNECT_B3_ACTIVE_IND` | src/capi/CapiChan.cpp:644-657 | taken while its B channel comes up only |
| `CapiChannel.Channel.DISCONNECT_B3_IND` | src/capi/CapiChan.cpp:670-687 | the state waits for the answer unless the call is being given up |
| `CapiChannel.Channel.DISCONNECT_IND` | src/capi/CapiChan.cpp:689-708 | answered at once, or kept until the application's answer |
| `CapiChannel.Channel.StateChangeTimer` | src/capi/CapiChan.cpp:31-56 | what a timer's expiry does in each state |
| `CapiChannel.Channel.Take` | src/capi/CapiMsg.cpp:436-601 | any one call, message or expiry |
| `CapiChannel.Channel.TakeAll` | src/capi/CapiMsg.cpp:436-601 | any number in turn: the channel is where the run leads, and if its log was in order and the CAPI conforms it is in order still (answers booked, DISCONNECT_RESP owed as the state says, CONNECT_B3_REQ disciplined) |
| `DynStore.InOnePlace` | src/standard/DynStore.cpp:92-214 | every buffer made so far is in pool, queue or other hands, in one of them, once |
| `DynStore.FreeAllAccounted` | src/standard/DynStore.cpp:205-214 | emptying the queue loses and doubles no buffer |
| `DynStore.AllocAccounted` | src/standard/DynStore.cpp:92-117 | a buffer taken from the pool, or made, is nowhere else |
| `DynStore.CDynStoreQueue.Alloc` | src/standard/DynStore.cpp:92-117 | relinks the pool, or makes a buffer |
| `DynStore.CDynStoreQueue.Free` | src/standard/DynStore.cpp:124-141 | relinks the pool; the queue keeps its links |
| `DynStore.CDynStoreQueue.InQueue` | src/standard/DynStore.cpp:166-180 | appends to the linked queue |
| `DynStore.CDynStoreQueue.OutQueue` | src/standard/DynStore.cpp:186-199 | takes the first of the linked queue |
| `DynStore.CDynStoreQueue.FreeQueue` | src/standard/DynStore.cpp:205-214 | the loop returns every queued buffer to the pool |
| `PutQueue.PutInOrder` | src/capi/CapiMsg.cpp:247-399 | over every run and every answer of CAPI: messages put in the order of AllocAndPutMsg, at most once, one in flight, none from a release to the next registration nor from before it; when CAPI does not know the application the release comes next; every buffer in one place |
| `PutQueue.DrainedKeeps` | src/capi/CapiMsg.cpp:293-318 | the drain recursion terminates, keeps that and leaves nothing in flight, also when failed messages make the handlers put more |
| `PutQueue.DrainsAll` | src/capi/CapiMsg.cpp:293-318 | without errors all messages before the one that asks for the release are put, then the release follows |
| `PutQueue.DrainsAnswers` | src/capi/CapiMsg.cpp:159-318 | when errors are answered by more messages, all that waits and then all that is added is put, in the order of the numbers, and nothing is left |
| `MsgBase.CCAPI20_MsgBase.AllocAndPutMsg` | src/capi/CapiMsg.cpp:247-285 | queues one message and drains |
| `MsgBase.CCAPI20_MsgBase.EmptyPutMsgbufferQueue` | src/capi/CapiMsg.cpp:293-318 | the mutual recursion with PutMessageComplete is the specified drain |
| `MsgBase.CCAPI20_MsgBase.PutMessageComplete` | src/capi/CapiMsg.cpp:385-399 | error handling while in flight, then the rest of the queue |
| `MsgBase.CCAPI20_MsgBase.HandleMessageError` | src/capi/CapiMsg.cpp:159-240 | what an error makes of the queue while the message stays in flight |
| `MsgBase.CCAPI20_MsgBase.FreeCurPutMsg` | src/capi/CapiMsg.h:320-326 | the buffer in flight goes back to the pool |
| `MsgBase.CCAPI20_MsgBase.RELEASE` | src/capi/CapiMsg.cpp:140-152 | drops what waits and queues the request for the release |
| `MsgBase.CCAPI20_MsgBase.REGISTER` | src/capi/CapiMsg.cpp:113-133 | begins with an empty queue and nothing in flight |
| `MsgBase.CCAPI20_MsgBase.ReleaseComplete` | src/capi/CapiMsg.cpp:361-379 | ends with an empty queue and nothing in flight |
| `MsgBase.CCAPI20_MsgBase.TakeAll` | src/capi/CapiMsg.cpp:113-399 | any calls in turn: the object is where the run leads, and its whole log satisfies the observer at the CAPI if it did before |
| `DataHand.FreeListIsComplete` | src/capi/DataHand.cpp:62-184 | the free list holds exactly the entries not in use |
| `DataHand.NewIsDistinct` | src/capi/DataHand.cpp:91-111 | a handle is given out exactly when one is free, was not in use, and freeing it returns the pointer and the store as it was |
| `DataHand.DelNextFinds` | src/capi/DataHand.cpp:148-184 | whenever an entry is in use the search finds and frees the one with the lowest handle |
| `DataHand.HeldAfterDelNext` | src/capi/DataHand.cpp:148-184 | deleting takes the stored pointers in the order of their handles |
| `DataHand.DataHandleAdmin.constructor` | src/capi/DataHand.cpp:62-84 | the loop threads all entries, ascending, into the free list |
| `DataHand.DataHandleAdmin.New` | src/capi/DataHand.cpp:91-111 | relinks the free list in the array; invariant kept |
| `DataHand.DataHandleAdmin.Free` | src/capi/DataHand.cpp:118-141 | refuses handles out of range or not in use; invariant kept |
| `DataHand.DataHandleAdmin.IsFree` | src/capi/DataHand.cpp:156-166 | the inner walk terminates and tells whether a link is in the free list |
| `DataHand.DataHandleAdmin.DelNextEntry` | src/capi/DataHand.cpp:148-184 | the nested search frees the lowest handle in use |
| `Transfer.RunBalanced` | src/capi/Channel.cpp:339-958 | over every interleaving, late and repeated confirmations and any calls from within callbacks included: acceptances less completions of a block are the handles that store it |
| `Transfer.ExactlyOnce` | src/capi/Channel.cpp:339-1282 | from a new channel never more completions than acceptances, and none missing after the loop that ends the B channel or the call, also when callbacks put again while it runs (src/faxsend/faxsend.cpp:440-450 does) |
| `Transfer.ResetBalanced` | src/capi/Channel.cpp:1276-1282 | the loop with any calls from within its callbacks keeps the balance |
| `Transfer.SilentReset` | src/capi/Channel.cpp:1276-1282 | when callbacks do nothing the loop completes one block for each handle in use, as many as the counter says, in the order of the handles |
| `Transfer.WaitingDisconnectIsLost` | src/capi/Channel.cpp:362-398 | after any run the confirmation of an outstanding block is its completion, with what happens in that, and nothing else |
| `Transfer.WaitKindsAreSwapped` | src/capi/Channel.cpp:362-380 | which waiting kind refuses more data, for every state with blocks outstanding |
| `TransferLedger.RunShows` | src/capi/Channel.cpp:339-1282 | over every run and for all calls from within callbacks, every event of the log is one that an observer of calls, messages and callbacks expects: what each call takes, completes, refuses and hangs up, under which handle, lowest handle first in the loop, and in the end it knows what the handles store |
| `TransferLedger.AcceptedGoesToTheLine` | src/capi/Channel.cpp:339-355 | over every run, at every place in the log: an acceptance is the first event of its PutData and is followed at once by one DATA_B3_REQ with the same handle while connected, else by the completion of that block; there is no other DATA_B3_REQ |
| `TransferLedger.PutThenConf` | src/capi/Channel.cpp:339-958 | PutData takes a block if and only if no status bit refuses it and a handle is free; its handle was not in use, and its confirmation completes that very block and brings back the store |
| `Transfer.CTransferChannel.PutData` | src/capi/Channel.cpp:339-355 | accepted, with the message or at once the completion, exactly when the call returns true |
| `Transfer.CTransferChannel.Notify` | src/capi/Channel.cpp:944-958 | a callback, with any calls that the application makes from within it |
| `Transfer.CTransferChannel.Perform` | src/capi/Channel.cpp:339-1282 | any calls and messages in turn are the specified run |
| `Transfer.CTransferChannel.Conserves` | src/capi/Channel.cpp:339-1282 | the object's log stays balanced: what is pending is what the handles store |
| `Transfer.CTransferChannel.DataB3Conf` | src/capi/Channel.cpp:944-958 | completes what the handle stores, with calls from within the callback, and then looks at the store again; or hangs up |
| `Transfer.CTransferChannel.ResetSendBlock` | src/capi/Channel.cpp:1276-1282 | the while loop, with calls from within its callbacks, ends and is the specified one |
| `Transfer.CTransferChannel.DisconnectB3Ind` | src/capi/Channel.cpp:1116-1123 | clears the waiting bits, completes all and asks the application |
| `Transfer.CTransferChannel.DisconnectInd` | src/capi/Channel.cpp:1152-1166 | while a controller is active: clears it and the waiting bits, completes all, and reports the end unless it is dialling |
| `Transfer.CTransferChannel.Disconnect` | src/capi/Channel.cpp:362-398 | the status and the hang-up for each kind |
| `TimerWalk.FiresWhatIsMeant` | src/linuxdep/TimerList.cpp:105-140 | for any callbacks, which arm and cancel: what fires is what is due and untouched when its turn comes, in list order, if and only if no callback cancels the next timer and none arms it while others are to fire; nothing is due then |
| `TimerWalk.FiresOnlyWhatIsMeant` | src/linuxdep/TimerList.cpp:105-140 | nothing fires that should not, nor out of turn, if and only if no callback cancels the next timer |
| `TimerWalk.FiresWhatIsDue` | src/linuxdep/TimerList.cpp:105-123 | for callbacks that only arm: the due timers fire, each once and in list order, if and only if none of them arms a timer still to fire; nothing is due then |
| `TimerWalk.ArmingTheNextEndsTheWalk` | src/linuxdep/TimerList.cpp:105-123 | one failing family: the next timer is armed, only the first fires, and the rest waits |
| `TimerWalk.CancelledNextFires` | src/linuxdep/TimerList.cpp:105-140 | the other failing family: the next timer is cancelled and fires all the same |
| `TimerWalk.ArmedTimerIsLost` | src/linuxdep/TimerList.cpp:105-140 | a callback that cancels the next timer and arms another before the rest: the cancelled one fires, and the armed one is in the list no more |
| `TimerWalk.NeverMore` | src/linuxdep/TimerList.cpp:105-123 | whatever the callbacks do, what fires are some of the timers that were due, in their order |
| `TimerWalk.NotifySorted` | src/linuxdep/TimerList.cpp:105-123 | as long as no callback cancels the next timer the list stays sorted by target |
| `TimerWalk.OthersStay` | src/linuxdep/TimerList.cpp:105-123 | then a timer neither due nor touched stays with its target |
| `TimerWalk.DueCalls` | src/linuxdep/SecTimer.cpp:49-70 | a callback leaves due exactly the timers it neither arms nor cancels |
| `TimerWalk.NextAfter` | src/linuxdep/TimerList.cpp:105-140 | whatever a callback does, the walk goes on with the timer that was next, as it was unless the callback armed it |
| `TimerWalk.NextPath` | src/linuxdep/TimerList.cpp:105-140 | the walk goes on over the list if the next timer is untouched, fires it if it was cancelled, and fires nothing more otherwise |
| `TimerList.CTimerList.Add` | src/linuxdep/TimerList.cpp:53-72 | the linked list gains the timer before the first that is not earlier; a walk that has kept the timer is led to its new place |
| `TimerList.CTimerList.Remove` | src/linuxdep/TimerList.cpp:74-90 | the linked list loses the timer, if it was there; a walk that has kept it goes on over its link |
| `TimerList.CTimerList.InternalRemove` | src/linuxdep/TimerList.cpp:125-140 | one element is unlinked, or, for one that is in the list no more, the list begins behind it; the links stay those of list and walk |
| `TimerList.CTimerList.SecTimerCall` | src/linuxdep/SecTimer.cpp:49-65 | cancels and adds at the time plus a positive interval |
| `TimerList.CTimerList.DoCallBack` | src/linuxdep/SecTimer.cpp:49-70 | any arming and cancelling in turn, with what it does to the list and to the walk that goes on |
| `TimerList.CTimerList.Notify` | src/linuxdep/TimerList.cpp:105-123 | the walk over the links, with callbacks that arm and cancel, terminates and is the specified one; the number of timers stays right if no callback cancels the next |
| `MSNList.OverlapExactly` | src/capi/MSNList.cpp:72-95 | ranges share a number unless one ends before the other begins |
| `MSNList.RangeTestMeans` | src/capi/MSNList.cpp:101-130 | the three answers are below, above and overlapping; never a match |
| `MSNList.AddExactly` | src/capi/MSNList.cpp:331-381 | a range is accepted exactly when valid and disjoint from every stored one, though the scan stops early; the list stays ascending and gains just it |
| `MSNList.ScanExactly` | src/capi/MSNList.cpp:167-193 | for any ascending list: found exactly when a matching entry has no cancelling one before it |
| `MSNList.ScanIsExhaustive` | src/capi/MSNList.cpp:167-193 | for entries of one length the early cancelling scan finds whatever an exhaustive search would |
| `MSNList.DialOrderSuffices` | src/capi/MSNList.cpp:167-193 | in a list in dialling order the scan finds whatever an exhaustive search would, for every number |
| `MSNList.ExhaustiveExactly` | src/capi/MSNList.cpp:167-193 | for a list in which no number can match two entries, that holds for every number if and only if the list is in dialling order |
| `MSNList.MixedLengthsMiss` | src/capi/MSNList.cpp:167-193 | a list and a number for which it does not |
| `MSNList.AcceptanceIsMonotone` | src/capi/MSNList.cpp:453-473 | an accepted number stays accepted, at the same entry, when more digits come |
| `MSNOrder.RangeIsNumeric` | src/capi/MSNList.cpp:28-95 | a range of digit strings holds exactly the numbers of its length whose values lie between those of its ends |
| `MSNOrder.MatchIsNumeric` | src/capi/MSNList.cpp:167-193 | a dialled number matches an entry exactly when its first digits are such a number |
| `MSNList.CCntrlMSNList.AddMSN` | src/capi/MSNList.cpp:331-381 | only that controller's list changes, as specified |
| `MSNList.CCntrlMSNList.SetMSN` | src/capi/MSNList.cpp:291-324 | the controller's list is the one range, or empty |
| `MSNList.CCntrlMSNList.Find` | src/standard/PtrList.cpp:60-85 | the loop finds the first answer other than No |
| `MSNList.CCntrlMSNList.TestDDINumber` | src/capi/MSNList.cpp:453-473 | which answer a dialled number gets |
| `ByteQueue.BetweenFrontWrap` | src/standard/ByteQueu.cpp:174-178 | two copies across the ring's begin prepend their bytes |
| `ByteQueue.CStandardByteQueue.FreeSize` | src/standard/ByteQueu.h:102-113 | used and free size always make up the maximum |
| `ByteQueue.CStandardByteQueue.UsedSize` | src/standard/ByteQueu.h:89-97 | the number of bytes in the queue, in every wrap case |
| `ByteQueue.CStandardByteQueue.IsFull` | src/standard/ByteQueu.h:77-84 | true exactly when nothing is free |
| `ByteQueue.CStandardByteQueue.Put` | src/standard/ByteQueu.cpp:79-115 | appends the first bytes that are granted in either mode |
| `ByteQueue.CStandardByteQueue.PutInFront` | src/standard/ByteQueu.cpp:151-187 | prepends the last bytes that are granted |
| `ByteQueue.CStandardByteQueue.Get` | src/standard/ByteQueu.cpp:194-225 | what is taken and what stays make up the contents |
| `ByteQueue.CStandardByteQueue.Fill` | src/standard/ByteQueu.cpp:307-343 | appends repetitions; length zero fills the queue |
| `ByteQueue.CStandardByteQueue.Remove` | src/standard/ByteQueu.cpp:350-375 | drops the first bytes |
| `ByteQueue.CStandardByteQueue.Resize` | src/standard/ByteQueu.cpp:382-420 | the contents survive, and the maximum changes exactly when they fit |
| `LineParser.WordsQuoted` | src/standard/LinePars.cpp:54-63 | a quoted text without quotes that does not end in a backslash is one word, whatever follows |
| `LineTokens.LineReads` | src/standard/LinePars.cpp:26-99 | the words of a line are those of the tokens that spell it: blanks, signs, quoted, unclosed and plain texts with their escapes, and a comment to the end |
| `LineTokens.EveryLineIsSpelled` | src/standard/LinePars.cpp:26-99 | there are such tokens for every line |
| `LineParser.ParseConfigLine` | src/standard/LinePars.cpp:26-99 | the loops find the specified words |
| `ConfigParser.RoundTrip` | src/standard/ConfPars.cpp:70-289 | every section tree of quotable names and data, nested to any depth, is rebuilt from its canonical lines, and the end of the lines changes nothing |
| `ConfigLists.AssignmentLine` | src/standard/ConfPars.cpp:125-289 | a line with a name, an assignment sign and a list, however it is spelled, adds one value: its data are what stands between the commas, and texts with range signs between them are one datum |
| `ConfigParser.TwoMuchExactly` | src/standard/ConfPars.cpp:151-167 | within a list of words this error comes exactly at a closing bracket to which the words before lead without error at the main section |
| `ConfigParser.LinesTwoMuch` | src/standard/ConfPars.cpp:70-167 | over any lines, continued ones included, it comes exactly at the first line with such a bracket |
| `ConfigParser.DepthLaw` | src/standard/ConfPars.cpp:125-270 | the current section's depth is what brackets opened less what they closed |
| `ConfigParser.UndefinedList` | src/standard/ConfPars.cpp:244-262 | for every list of words: the source uses a value that does not exist if and only if a range sign dangles |
| `ConfigParser.DanglesBehindBracket` | src/standard/ConfPars.cpp:125-270 | such a sign has a text and behind that a bracket before it |
| `ConfigParser.UndefinedLine` | src/standard/ConfPars.cpp:244-262 | a line with such a sign |
| `ConfigParser.CConfigGrammarParser.ParseLine` | src/standard/ConfPars.cpp:70-85 | a line's words join those kept from a continued line; without a line what was kept is parsed and nothing is kept any more |
| `ConfigParser.CConfigGrammarParser.ParseWords` | src/standard/ConfPars.cpp:90-289 | comments at the end, continuation, and the words up to the first error; the current section stays in the tree |

## Left out

- Struct trees of `CCStruct` are values here, not objects: aliasing of struct objects and updates of their fields
  in place are not captured; the buffer that is written and read is an array.
- Readers of CCStruct have no operators that the source cannot parse (STRING, PACKET, ARRAY, MULTIPLY, a null STRUCT, a
  message length); what writers with these wrote is read by data, structs and raw data. A nested struct without a
  length is in the size and write pass only.
- A null MULTIPLY writes through an overwritten pointer; the model says nothing about it.
- The section objects of the configuration parser are values on the path of open sections, which stands for the
  chain of upper-section pointers.
- The message base works on the sequences of its buffer store; the linked lists of the store are proved
  separately against the same functions.
- The contents of messages in the put queue are numbers.
- HufMachine.RunReadsBack: lines that overflow the line buffer (LinesFitExactly says which) are excluded, because the
  source then writes behind it.
- Huf2Sff.Filter.HufTstBit: a line longer than the 8192 bytes of the line buffer is written behind it, unchecked in
  the source; the model demands that the bit finds room.
- Huf2Sff.Filter.PutChar: the same demand for a byte; the source calls HUFtstBit eight times in a row, the model in a
  loop.
- FaxFill.FaxConversion.PutChunk: the same demand for the lines of a chunk.
- FaxFill.FaxConversion.TakeChunk: the same demand.
- FaxFill.FaxConversion.FillSffFilter: the same demand for the lines of all chunks; reading and decoding files is a
  parameter, the chunks that come.
- FaxFill.FaxConversion.SendSFF: the same demand; files that are SFF already are handed out as they are read, which is
  not modelled.
- FaxDocument.SendDocument: chunks that lose bytes to a full ring are excluded (HeadroomExactly says when there are
  none; SendSFF covers the others); the guard against re-entry, the full put queue and the buffers of the blocks are the
  sizes that come.
- FaxRoom.SendRawPage: lines of more than 4922 code bits, which may lose bytes.
- CCStructBuffer.Cursor.PutParams: lengths cached before must be exact, and no pointer may follow a gap, because the
  source then reads wrong memory.
- CCStructBounds.StaysInsideExactly: formats longer than 65535 bytes, which no length word can declare, and structs that
  have been parsed before, for which StaysInside holds and RawStraysExactly says what raw data does.
- MsgBase.CCAPI20_MsgBase.HandleMessageError: the rewriting of the failed request into a confirmation and its way
  through the handlers is the reaction that the result names.
- Transfer.CTransferChannel.Notify: what happens within callbacks is a finite script, so an application that puts
  again in every completion while the line is down, and recurses without end, is not modelled.
- Transfer.CTransferChannel.DisconnectInd: the listening logic that follows is not modelled.
- TimerList.CTimerList.Notify: a list with a due timer behind one that is not due, as only a walk in which a cancelled
  timer fires can leave behind; a signal during the walk is not modelled.
- TimerWalk.FiresWhatIsMeant: the same demand.
- MSNList.ExhaustiveExactly: lists in which a number can match two entries, for which DialOrderSuffices holds.
- In the CAPI channel, callbacks other than the one of CONNECT_ACTIVE_IND leave the state alone; a timer that
  cannot be created is not modelled.
- The return from a change of B protocol: the confirmation does not lead back to the connected state in the source.
- Loss of memory, 16-bit and 32-bit wrap-around of counters, ticks and lengths.
- Locks and true concurrency, the byte queue's included; every handler is one step.
- Show, ShowByte and PutByte of the byte queue; Clear and Card of the timer list.
- The search of the number lists for a called number's last digits, and the copying of controller information.
- CapiLedger.RunFits: a CAPI that breaks the protocol (results nobody asked for, a second DISCONNECT_IND for a
  connection, addresses out of range) is not covered; the predicate Conforms says which inputs are.
- CapiWire.RunAgrees: a CAPI that does not keep to the PLCI's state diagram is not covered; the predicate Allows says
  what keeps to it.
- CapiB3Wire.RunAgreesB3: the same for the NCCI's, and AllowsB3.
- CapiTold.RunKnows: the callbacks of a call's course only; those of data, information and registration are counted in
  CapiCounts, and that of a change of protocol is in the step functions alone.
- MSNOrder.RangeIsNumeric: strings with other characters than digits, which compare by their codes.
- PutQueue.DrainsAnswers: handlers that ask for a release while messages fail, for which PutInOrder holds.
- Supplementary services, DTMF, facility messages and the listening logic of the transfer channel.
- Files, TIFF, processes, permissions, logging and command lines.
