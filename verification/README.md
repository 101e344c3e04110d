# abc to MIDI: a verified model of the back end

abc2midi turns a tune in abc notation into MIDI. The parser leaves a flat list of *features* (notes, rests,
bars, repeat marks, chord brackets, ties, grace brackets). Passes rewrite that list; then `writetrack` plays it:
a repeat machine decides what is played and in which order, exact rational lengths become whole ticks, and a queue
of 50 slots remembers which notes have still to end. `ABCReader` listens to the resulting MIDI events and builds
notes from them. Beside that, a real-time event buffer carries events from the script thread to the audio thread.
This project models these parts in Dafny and proves what they promise.

The parts, and what is proved of them:

* **Numbers** (`Fractions`, `Numerals`). `reduce` reaches lowest terms and keeps the value.
* **The note-off queue** (`NoteQueue`, class `Queue`). The linked list and the free list share one array. In every
  state the two chains partition the 50 slots; `addtoQ` is insertion into a sequence, and that insertion is stable
  insertion by absolute deadline, in which all later deadlines move earlier by one common amount.
* **The clock** (`Clock`, `ClockLaws`, `Callbacks`, `TrackEnd`, class `Sequencer.Track`). `delay` never drifts.
  `timestep` ends exactly the notes that are due, each at its deadline, and terminates although its callback
  refills the queue. The fatal check in `removefromQ` fires exactly when a step of the accompaniment, of guitar chords
  or of drums, that starts a note is shorter than one tick; over a whole run, exactly when such a step begins before
  the time reached (`Accompaniment`). `clearQ` ends every pending note once.
* **Repeats** (`Playback`, `Sections`, class `WriteTrack.RepeatMachine`). The machine terminates although it jumps
  backwards. A tune made of plain stretches, `|: X :: Y :|` chains and variant endings, with double bars anywhere
  outside the endings, is played as its written-out form, every pass from the saved settings; variant endings mean
  what the notation says under an exact condition. The double bar that `scan_for_missing_repeats` puts behind the
  first line of music (`abcmidi/store.c:5749-5753`) changes nothing that is played.
* **Voices** (`Voices`). In a tune of several voices each track plays exactly what it would if the part of its voice
  stood alone, with its repeats, endings and settings, whatever the stretches of the other voices hold.
* **End to end** (`Writer`, `WriteTrack`, `Reader`, `Phrases`, `Deltas`, `EndToEnd`, `Percussion`). Writing any such
  tune of notes, rests, chords and resolved ties and reading it back gives exactly the tones of the written-out tune:
  each begins one tick after the floor of its exact time and lasts one tick less than its length, strummed chords end
  together. It does so exactly when no note-off is written with a negative wait, and that is exactly when each single
  note lasts at least a tick and each chord longer than its strum. This covers the drum channel wherever its drum map
  leaves mapped pitches as they are, and a single note is read back exactly under these two conditions. Each voice of
  a tune of several voices is read back so. Every note off the drum channel sounds under its own pitch bend (`Bends`).
* **Passes over the feature list**. Repeat repair (`FixReps`), tie resolution (`Ties`, `TiedTune`), grace notes
  (`Grace`, `GracePass`), trills and rolls (`Ornaments`) and broken rhythm (`BrokenRhythm`), each as a method that
  changes the array in place, proved to keep playing time or meaning, with the exact condition where the code fails.
  Where `fixreps` puts a mark, which notes an ornament consists of and which of two notes `>` lengthens is stated of
  the tune as it is written.
* **Accompaniment** (`GchordPattern`, `Accompaniment`, `Strokes`). A guitar-chord pattern fills its bars exactly; the
  steps of a guitar-chord or drum pattern are played once each, in order, at the running sum of their rounded-down
  lengths; where the stretches of time begin and end makes no difference. A pattern that is no longer than its bars is
  played once in each, over any number of them. Each action starts the notes it means: bass, chord, both, or one note
  of the chord.
* **Text** (`VStrings`, `Parts`, `Lines`, `PassLists`). The `P:` reader inverts the printer; lines split the same way
  whatever their ending.
* **The event buffer** (`Events`, classes `EventBuffers.EventList` and `EventBuffers.EventBuffer`). In every
  interleaving of the two threads each event is in one place, and one overtakes an earlier one that is due no later
  exactly when `recycleRemaining` takes it from the queue past the list. Which events a call gives and which it
  recycles is stated in frames and bars.

Where the program works by changing arrays and globals, the model does so too: classes and methods over arrays,
proved equal to functions on values; the theorems are about those functions. MIDI output is the sequence `log` of
events with delta times. Times are integers in ticks; `int` is unbounded.

## Where the code departs from its intent

These are properties of the code, stated in the lemmas named.

* `|: X [1 Y :| [2 Z :|` plays `X` a third time: `:|` after the last ending goes back while `pass < maxpass`, and
  `maxpass` was raised to `pass + 1`. Endings after the fourth are never played (`Sections.VariantsMeantIff`).
* A note shorter than a tick ends before it begins, and a chord no longer than its strum before its last note does:
  `timestep` writes the note-off with a negative wait, which the reader takes for an unsigned number, so that all that
  follows comes 2^32 ticks later (`EndToEnd.WrittenAndReadBack`, `EndToEnd.ShortNote`, `EndToEnd.ShortChord`).
* `timestep` ends the program through `removefromQ` when a sounding step is shorter than one tick
  (`Callbacks.RequestFatalIff`, `Accompaniment.RunFatalIff`).
* `fixreps` counts variant endings once for the whole tune, so a later stray `:|` stays; and when it opens a repeat for
  a variant ending it does not note that one is open, so that a `|:` before the next `:|`, or a double bar and a `::`,
  leave the tune badly bracketed (`FixReps.RepairBracketsIff`, `FixReps.StrayRemains`, `FixReps.EndingOpens`). Its
  reference point has no value at first, and is read before it has one exactly when a `:|`, `::` or variant ending
  comes before the first double bar or `|:` (`FixReps.PointReadIff`); the double bar behind the first line of music
  keeps that from happening (`FixReps.BehindDoubleBar`).
* In the first manner of grace notes an empty group `{}` shortens its host and gives the time to no one. In both
  manners a group with a chord is given time for each note of the chord and takes the time of one: `{[CE]}A` is too
  short (`Grace.ApplyKeepsTime`, `Grace.ChordInGroupLosesTime`). The program accepts both silently. In the second manner
  the host's first note decides the length of a whole host chord; the parser gives a chord the length of its first
  note, so that is a matter of defence.
* The actions `g` to `j` and `G` to `J` play what lies behind the last note of the chord when the chord has no such
  note or the accompaniment is switched off (`Strokes.GchordMeant`).
* The odd-sum test of the ratio command looks at one of the two numbers only (`BrokenRhythm.RatioEvenIff`).
* A guitar-chord text without any step leaves an empty pattern although a rest of one unit was meant
  (`GchordPattern.PatternFillsBars`).
* `read_spec` never gets past `+` or `-` (`Parts.HangsIffSign`).
* With mixed line endings an empty line can be taken for the second half of the ending before it
  (`Lines.SplitGivesLines`).
* On the drum channel the pitch goes through the drum map once on its way to the note-on and twice on its way to the
  note-off. A percussion note of a tick or more is read back exactly when the map leaves the mapped pitch as it is; when
  the map does not, the note never ends (`Percussion.ToneIffEndsAsBegun`, `Percussion.MapTwice`).
* `recycleRemaining` empties the queue before the list, so a later event can leave before an earlier one that is due no
  later (`Events.OvertakenIff`, `Events.OvertakingWitness`).
* Two equal pitches of a chord are read back as one note (`Reader.UnisonMerges`).

## Model

| member | source | states |
|---|---|---|
| Fractions.ReduceSound | abcmidi/genmidi.c:296-324 | reduce keeps the value of the fraction, keeps the denominator positive and reaches lowest terms |
| Fractions.GcdGreatest | abcmidi/genmidi.c:308-321 | what Euclid's loop finds is a multiple of every common divisor |
| Fractions.Reduce | abcmidi/genmidi.c:296-324 | the loop with its sign and swap computes the reduced fraction, for every numerator sign |
| NoteQueue.InsertRefines | abcmidi/queues.c:90-134 | adding to the queue is stable insertion by absolute deadline: earlier and equal deadlines stay, all later ones move earlier by one common amount, the lesser of notedelay and the gap, never past the new entry |
| NoteQueue.ExpiredIsCount | abcmidi/queues.c:581-582 | the place found by using up delays is the number of entries due by then |
| NoteQueue.PartitionCovers | abcmidi/queues.c:217-260 | the queue chain and the free chain together hold every one of the 50 slots, which is what Qcheck looks for |
| NoteQueue.Queue.constructor | abcmidi/queues.c:203-215 | Qinit gives an empty queue with all slots free |
| NoteQueue.Queue.AddToQ | abcmidi/queues.c:90-134 | the array code inserts the entry as the sequence function does, or reports a full queue and changes nothing |
| NoteQueue.Queue.RemoveFromQ | abcmidi/queues.c:136-151 | fails exactly when the head's delay is not zero, and otherwise drops the head and frees its slot |
| NoteQueue.Queue.AdvanceQ | abcmidi/queues.c:193-201 | only the head's delay is reduced |
| ClockLaws.DelayExact | abcmidi/genmidi.c:2295-2308 | for every rational delay, ticks plus carried fraction equal the exact time plus the fraction carried in, and the carry stays below a tick |
| ClockLaws.TimestepEndsNotes | abcmidi/queues.c:569-623 | timestep(t) removes exactly the entries due before t, logs each plain note-off at its own deadline in order, and advances the clock by t less the strummed delay |
| Callbacks.TimestepNeverFatal | abcmidi/queues.c:569-623 | with every sounding step at least one tick long timestep returns, whatever the queue and however often its callback refills it |
| Callbacks.GchordDisplacesIff | abcmidi/genmidi.c:2325-2445 | playing a step displaces the entry that asked for it exactly when the step sounds, lasts no tick, and there is room |
| Callbacks.DrumDisplacesIff | abcmidi/genmidi.c:2447-2469 | the same for a step of a drum pattern |
| Callbacks.ProgressDisplacesIff | abcmidi/genmidi.c:2497-2506 | and for the callback as a whole, on a track with guitar chords, drums or both |
| Callbacks.RequestFatalIff | abcmidi/queues.c:136-151 | on any track a due request ends the program exactly when its step is too short, and otherwise leaves the queue and time goes on |
| TrackEnd.ClearQEndsAll | abcmidi/queues.c:153-176 | clearQ empties the queue and releases every pending plain note exactly once, in queue order |
| Sequencer.Track.WriteNoteOn | abcmidi/genmidi.c:1397-1404 | a change of bend is written first and takes the waiting time, the drum channel is mapped, the track length advances |
| Bends.NoteUnderBend | abcmidi/genmidi.c:1358-1395 | a note-on off the drum channel is written under the bend of its note, whatever bends came before |
| Bends.EachUnderItsBend | abcmidi/genmidi.c:2953-3017 | over a whole run each note off the drum channel has its note-on, with its channel and velocity, under its own bend |
| Sequencer.Track.PlayGchords | abcmidi/genmidi.c:2325-2445 | dogchords starts the notes of the step asked for, each of its actions, and queues the request for the next one |
| Strokes.GchordMeant | abcmidi/genmidi.c:2334-2440 | the notes an action starts: f the bass or the inversion, c the chord, or the bass for lack of one, b both, g to j one note of the chord, G to J the same an octave down, z none |
| Strokes.DueStepStarts | abcmidi/genmidi.c:2325-2445 | a due request writes exactly the note-ons its action means, at the moment it is due |
| Strokes.DueDrumStarts | abcmidi/genmidi.c:2447-2469 | and for a drum step its drum, through the drum map, with its velocity |
| Strokes.FzczPlays | abcmidi/genmidi.c:2325-2445 | the pattern fzcz plays the bass when it begins, the chord two steps later, and nothing else |
| Sequencer.Track.PlayDrums | abcmidi/genmidi.c:2447-2469 | dodrums does the same for a drum pattern |
| Sequencer.Track.LetTimePass | abcmidi/queues.c:569-623 | the loop over the linked queue does what the clock function does, and fails exactly where that is fatal |
| Sequencer.Track.Wait | abcmidi/genmidi.c:2295-2308 | delay over the error globals and the queue is the clock function Delay |
| Sequencer.Track.ClearQueue | abcmidi/queues.c:153-176 | the three stages of clearQ leave the state of the clock function and an empty queue |
| Playback.NextProgress | abcmidi/genmidi.c:2948-3431 | each turn of the loop that jumps backwards decreases the saved place left, the passes left and the features left, lexicographically, and keeps pass within four |
| Sections.PlaybackUnrolls | abcmidi/genmidi.c:3132-3272 | any sequence of straight, repeated and variant sections, double bars among them, is played as its written-out form, each pass from the settings saved at the opening mark, with no error and no repeat left open |
| Sections.SettingsInForce | abcmidi/genmidi.c:588-599 | the last channel and transpose features decide under which settings a feature is played |
| Sections.StrayPlays | abcmidi/genmidi.c:3145-3170 | a closing mark with nothing open is played over, with an error |
| Sections.UnopenedPlays | abcmidi/genmidi.c:3245-3270 | a double repeat with nothing open begins a repeat, with an error |
| Sections.ReopenedPlays | abcmidi/genmidi.c:3132-3143 | a second opening mark is where the repeat begins, with an error |
| Sections.PlaybackBehindDoubleBar | abcmidi/store.c:5749-5753 | the double bar put behind the first line of music changes nothing that is played |
| Sections.VariantsMeantIff | abcmidi/genmidi.c:3184-3242 | a section with variant endings is played as the notation means exactly when it has up to four endings with a double bar at the last, or exactly four (or nothing audible beyond) |
| WriteTrack.RepeatMachine.Turn | abcmidi/genmidi.c:3132-3272 | one turn over the repeat fields is the step of the repeat machine |
| WriteTrack.RepeatMachine.Save | abcmidi/genmidi.c:575-586 | the place and the settings in force are kept |
| WriteTrack.RepeatMachine.Restore | abcmidi/genmidi.c:588-599 | they are brought back for the next pass |
| WriteTrack.RepeatMachine.TurnToEnding | abcmidi/genmidi.c:3184-3242 | a variant ending is entered on its pass and skipped to its end otherwise |
| WriteTrack.SearchVoice | abcmidi/genmidi.c:725-750 | the scan stops at the first mark that names the voice, and for voice 1 at a part mark too |
| Voices.VoiceAlone | abcmidi/genmidi.c:2927-3452 | of a tune of several voices a track plays what it would if the part of its voice stood alone, repeats, variant endings and settings included |
| Voices.StretchesOfVoice | abcmidi/genmidi.c:3094-3099 | without repeats: exactly the stretches whose mark names the voice, in order, and only they change its settings |
| Voices.VoiceUnrolls | abcmidi/genmidi.c:3132-3272 | a voice whose part is made of sections is played as its written-out form |
| Voices.EndingOfVoice | abcmidi/genmidi.c:3204-3219 | an ending that is skipped ends at the first feature of the same voice that ends one, past the stretches of other voices |
| WriteTrack.SearchEnd | abcmidi/genmidi.c:3204-3219 | the scan finds the end of a variant ending across voice changes |
| WriteTrack.Listed | abcmidi/genmidi.c:1227-1273 | the scan over a list such as 1,3-5 decides as inlist does, a bad list counting as a match with an error |
| PassLists.ListHolds | abcmidi/genmidi.c:1245-1271 | a printed list of numbers and ranges is read without error as the passes it denotes |
| WriteTrack.NoteWriter.WriteNote | abcmidi/genmidi.c:2953-3017 | a note is started, its end queued, and its length waited for; in a chord the strum is set up instead |
| WriteTrack.NoteWriter.WriteChordEnd | abcmidi/genmidi.c:3053-3072 | the end of a chord waits for its length and resets the strum |
| WriteTrack.NoteWriter.Write | abcmidi/genmidi.c:2948-3431 | any other feature of a note track does what the playing function says |
| WriteTrack.WriteNotes | abcmidi/genmidi.c:2763-3452 | the two machines in one loop leave the control state and the sound that the functions give, up to the final clearQ |
| WriteTrack.SoundsTurn | abcmidi/genmidi.c:2948-3431 | what sounds is the playback of the repeat machine, played |
| Reader.ReadForward | src/abcreader.cpp:198-219 | as long as no wait is negative, reading deltas one by one is reading the events at their absolute times |
| Reader.ReadLasting | src/abcreader.cpp:198-219 | whatever the stream, the reader makes no note of negative length, and what it has read stays |
| Reader.PairedAlike | src/abcreader.cpp:198-219 | which note-off ends which note does not depend on the waits |
| Reader.EndAll | src/abcreader.cpp:206-216 | notes of different pitch that began and end together become one tone each with the right start and duration |
| Reader.UnisonMerges | src/abcreader.cpp:202-216 | two notes of one pitch that sound together become one tone, with the first one's velocity and the second one's start |
| Reader.AbcReader.StartTrack | src/abcreader.cpp:172-176 | position and pending notes are reset |
| Reader.AbcReader.WriteMidiEvent | src/abcreader.cpp:198-219 | the wait moves the position, taken for an unsigned number; a note-on is remembered by pitch and channel, a note-off completes the first note pending under its key, a stray one is ignored |
| Reader.AbcReader.ReadTrack | src/abcreader.cpp:172-219 | the fields after a whole stream are those of the reading function |
| Phrases.Release | abcmidi/queues.c:569-623 | when the queue runs empty all notes of a chord end on one tick |
| Phrases.StrumQueue | abcmidi/queues.c:121-127 | each later note of a strummed chord queues so that all still end together |
| Deltas.TimestepOnward | abcmidi/queues.c:577-590 | time that passes over notes still to end, less what a strum has taken of it, leaves no negative wait |
| EndToEnd.PhrasePlays | abcmidi/genmidi.c:2953-3066 | from any point between notes, playing a phrase writes exactly its tones, in the time of the writer's clock, and leaves the queue empty; when each note lasts a tick and each chord longer than its strum, no wait is negative |
| EndToEnd.PhraseReadBack | src/abcreader.cpp:198-219 | no wait is negative exactly when each note lasts a tick and each chord longer than its strum, and exactly then the reader gets exactly the tones of the phrase; in any case it pairs all notes |
| EndToEnd.ExpectLasting | abcmidi/genmidi.c:2953-3066 | that condition is that all tones of the phrase have a length |
| EndToEnd.WrittenAndReadBack | abcmidi/genmidi.c:2763-3452 | any sectioned tune of notes, rests, chords and tied notes, on any channel, whose notes end at the pitch they begin at, is written without error and read back with nothing left sounding; what is read back is exactly the tones of its written-out form at their exact times rounded down if and only if no wait written is negative, if and only if each note lasts a tick and each chord longer than its strum |
| EndToEnd.VoiceReadBack | abcmidi/genmidi.c:2763-3452 | the same for the track of each voice of a tune of several voices, whose part is made of sections |
| EndToEnd.ArpeggioStep | abcmidi/genmidi.c:3053-3072 | a chord behind an arpeggio mark begins its notes three times as far apart, the next one as before |
| EndToEnd.ShortNote | abcmidi/queues.c:90-98 | a note of a thousandth of a quarter is a phrase for which that fails |
| EndToEnd.ShortChord | abcmidi/queues.c:90-98 | and so is a chord of four sixty-fourths at the default spacing of ten ticks |
| Percussion.ToneIffEndsAsBegun | abcmidi/genmidi.c:2974-2976 | a note is read back as its tone exactly when it lasts a tick and the drum map leaves the mapped pitch as it is, which off the drum channel is always; when the map does not, it is not read back and goes on sounding |
| Percussion.MapTwice | abcmidi/genmidi.c:1380-1395 | a drum map under which percussion note 0 begins at pitch 1 and ends at pitch 2 |
| FixReps.PlaceStartRep | abcmidi/store.c:5252-5278 | only the bar named changes: a double or single bar to an opening one, a closing one to a double repeat |
| FixReps.PlaceEndRep | abcmidi/store.c:5230-5250 | only the bar named changes, an opening repeat to a double one |
| FixReps.PointReadIff | abcmidi/store.c:5286-5342 | the scan reads its reference point only after it has been set exactly when no closing or double repeat mark and no variant ending comes before the first double bar or opening mark |
| FixReps.BehindDoubleBar | abcmidi/store.c:5749-5753 | which the double bar behind the first line of music sees to, as long as no mark stands before it |
| FixReps.RepairRepeats | abcmidi/store.c:5280-5346 | the scan, which changes bars behind it, computes the repaired tune |
| FixReps.RepairMends | abcmidi/store.c:5280-5346 | said of the written tune: a closing or double repeat mark or first variant ending that lacks its start gets it at the last double bar or closing mark in front of it, an opening mark in an open repeat becomes a double one, and nothing else changes |
| FixReps.RepairBracketsIff | abcmidi/store.c:5280-5346 | the repaired tune is well bracketed exactly when the tune holds none of three kinds of marks: a closing mark that closes nothing after a variant ending, an opening mark in the repeat opened for a variant ending outside one, or a double repeat there behind a double bar |
| FixReps.RepairChangesBarsOnly | abcmidi/store.c:5280-5346 | only bars change, and only into repeat marks |
| FixReps.RepairLeaves | abcmidi/store.c:5280-5346 | a well-bracketed tune whose variant endings lie in its repeats is not changed |
| FixReps.NoVariants | abcmidi/store.c:5280-5346 | without variant endings the repaired tune is always well bracketed |
| FixReps.EndingOpens | abcmidi/store.c:5326-5331 | a double bar becomes the opening mark of a variant ending outside a repeat; with a repeat behind it the same tune is left badly bracketed |
| FixReps.StrayRemains | abcmidi/store.c:5308-5326 | a tune whose repair is not well bracketed, its last closing mark closing nothing |
| Ties.AddFract | abcmidi/store.c:4611-4618 | the sum of two lengths is exact |
| Ties.FollowTies | abcmidi/store.c:4660-4788 | a chain of ties is followed to its end: all its notes silenced, the first as long as all |
| Ties.DoTie | abcmidi/store.c:4636-4788 | resolving one tie keeps all times, joins only what the tie allows, and completes that tie |
| Ties.TieFix | abcmidi/store.c:4828-4895 | NOTE and TIE become TNOTE, REST and OLDTIE with the total delay unchanged, each TNOTE as long as the rests that cover it, only notes of the chain joined, and every tie between equal notes resolved |
| TiedTune.ResolvedIsPhrase | abcmidi/store.c:4828-4895 | a resolved voice is a phrase of the end-to-end theorem, so each chain is read back as one tone |
| TiedTune.TiedReadBack | abcmidi/store.c:4828-4895 | a voice whose ties were resolved, written and read back, gives the tones of its chains, each of the joint length, exactly when each note lasts a tick |
| Grace.GraceNoteVal | abcmidi/store.c:5007-5011 | every note of a group, and every end of a chord in it, is scaled by the one factor |
| Grace.HostOrig | abcmidi/store.c:4989-5002 | in the first manner each member of the host keeps the same fraction of its length |
| Grace.HostNew | abcmidi/store.c:5101-5127 | in the second manner the host keeps its length less the divided grace notes, and stays positive |
| Grace.GraceShare | abcmidi/store.c:4976-5011 | the factor makes the sum of the notes exactly what the host gives up, unless in the first manner there are none and the host gives up something all the same |
| Grace.ApplyKeepsTime | abcmidi/store.c:4908-5142 | group and host last longer than the host alone by the gain of the group, which is nothing exactly when: in the first manner, the group holds a note and the members of its chords add up to the lengths at their ends; in the second, these differ by just what the host chord differs from its first note |
| Grace.CutKeepsTime | abcmidi/store.c:5106-5119 | a group too long for its host is cut out, nothing else changes, and the time is kept |
| Grace.TooLongIff | abcmidi/store.c:5101-5119 | a group is cut out exactly when in the second manner its notes, divided, would take all the host's first note has |
| Grace.PlainGroupIsEven | abcmidi/store.c:4908-5142 | a group with a note and without chords, before a host that ends as long as its first note is, keeps the time in either manner |
| Grace.ChordInGroupLosesTime | abcmidi/store.c:4979-4986 | a group of one chord of two equal notes makes the tune too short, in either manner, unless it is cut out |
| Grace.GracedTime | abcmidi/store.c:5146-5167 | over a whole tune, however many groups and whichever manner, the playing time is that of the tune without its grace notes plus what the groups gain |
| Grace.GracedKeepsTime | abcmidi/store.c:5146-5167 | with every group cut off or even it is exactly that of the tune without its grace notes |
| GracePass.FindGroup | abcmidi/store.c:4930-4971 | the searches find the end of the group, the next note or chord, and the end of that |
| Grace.GroupIs | abcmidi/store.c:4930-4971 | the group ends at the first closing bracket, its host is the first note or rest behind, and a host in a chord lasts to the end of the chord |
| Grace.NoGroup | abcmidi/store.c:4930-4971 | a group is without a host only when no note or rest follows its closing bracket |
| GracePass.GraceUnits | abcmidi/store.c:4976-4986 | the loop adds up the notes and rests of the group |
| GracePass.ShortenHost | abcmidi/store.c:4988-5002 | the loop changes exactly the host |
| GracePass.ScaleGroup | abcmidi/store.c:5006-5011 | the loop changes exactly the notes of the group |
| GracePass.LenMul | abcmidi/store.c:3278-3286 | one length is multiplied and reduced, of a note, rest or chord end only |
| GracePass.RemoveFeatures | abcmidi/store.c:1763-1781 | a stretch is cut out and the rest moves up in order |
| GracePass.ApplyGraceOrig | abcmidi/store.c:4908-5013 | the array afterwards is the tune with the group and host of the first manner |
| GracePass.ApplyGraceNew | abcmidi/store.c:5016-5142 | the same for the second manner, with the removal of a group that is too long |
| GracePass.DoGrace | abcmidi/store.c:5146-5167 | the scan, whose array shrinks under it and whose manner changes on the way, computes the graced tune |
| Ornaments.FeatureTable.Extend | abcmidi/store.c:1596-1650 | the table doubles and keeps its contents |
| Ornaments.FeatureTable.InsertFeature | abcmidi/store.c:1715-1740 | insertion is a splice at the place, growing the table when it is full |
| Ornaments.FeatureTable.RemoveFeature | abcmidi/store.c:1743-1760 | removal is a splice |
| Ornaments.RollKeepsTime | abcmidi/store.c:3829-3866 | the five notes of a roll take the time of the note |
| Ornaments.TrillKeepsTime | abcmidi/store.c:3944-3988 | the notes of a trill, however often halved, take the time of the note |
| Ornaments.ExpansionKeepsTime | abcmidi/store.c:5822-5846 | a tune with its ornaments replaced takes as long |
| Ornaments.BeginningsKeepTime | abcmidi/store.c:5822-5846 | and every feature of it begins when it did |
| Ornaments.Halve | abcmidi/store.c:3966-3971 | the halving ends with notes of at most a tenth of a second, so at least ten in a second, and the same time in all |
| Ornaments.DoRoll | abcmidi/store.c:3829-3866 | the note is replaced in place by the notes of the roll |
| Ornaments.OrnamentsSound | abcmidi/store.c:3829-3988 | afterwards an undecorated feature stands unchanged, a roll is the note, its upper neighbour, the note, its lower neighbour, the note, a fifth each, and a trill the upper neighbour and the note in turn, halved no more than needed, all with their bends |
| Ornaments.DoTrill | abcmidi/store.c:3944-3988 | the note is replaced in place by the alternating notes of the trill |
| Ornaments.ExpandOrnaments | abcmidi/store.c:5822-5846 | the scan, which passes over the notes it inserts, replaces every decorated note and nothing else |
| BrokenRhythm.BrokenAdjust | abcmidi/store.c:3289-3344 | fails, changing nothing, exactly when a note is missing or the two differ in length; otherwise every length of the one is scaled by the one multiplier and of the other by the other |
| BrokenRhythm.BrokenWay | abcmidi/store.c:3298-3316 | > makes the first of two equal notes the longer one, < the second: three times as long by default and keeping their time, seven times for two signs, fifteen for three |
| BrokenRhythm.BrokenKeepsPair | abcmidi/store.c:3289-3344 | the two lengths are then as the multipliers, and together what they were exactly when those add up to an even number |
| BrokenRhythm.RatioEvenIff | abcmidi/store.c:1992-2007 | which settings of the ratio command give an even sum: an even sum of the numbers, or a first number 1, or a double or triple mark |
| GchordPattern.StepsReadBack | abcmidi/genmidi.c:401-413 | reading a printed pattern gives its steps and counts back |
| GchordPattern.StepIff | abcmidi/genmidi.c:401-402 | a step is read exactly where one of the letters zcfbghijGHIJx stands |
| GchordPattern.PatternFillsBars | abcmidi/genmidi.c:388-428 | the steps add up to exactly the length of the bars, unless and only unless the text begins with no step |
| GchordPattern.SetGchords | abcmidi/genmidi.c:388-428 | the loops over the two arrays compute that pattern and report an empty length or too many steps exactly when there is one |
| Accompaniment.StepHappens | abcmidi/genmidi.c:2325-2469 | a due request, of guitar chords or drums, starts the notes of its step at that moment, queues their ends one tick before the next, and the request for the next |
| Accompaniment.TimestepPerforms | abcmidi/queues.c:569-623 | letting time pass plays exactly what the pattern has before the time reached and leaves it there |
| Accompaniment.RunFatalIff | abcmidi/queues.c:569-623 | letting time pass ends the program exactly when a step that starts a note and is shorter than a tick begins before the time reached |
| Accompaniment.PerformJoin | abcmidi/genmidi.c:2295-2308 | stopping on the way makes no difference to what is played |
| Accompaniment.PlaysEachStepOnce | abcmidi/genmidi.c:2325-2445 | by the time a step begins exactly the steps before it have been played, once each, in order, each ended one tick before the next |
| Accompaniment.BehindByLessThanSteps | abcmidi/queues.c:98-98 | no step begins after its exact time, and none is early by as many ticks as there were steps |
| Accompaniment.BarBeginsPattern | abcmidi/genmidi.c:545-552 | a bar line begins the pattern anew, a request left over from the last one doing nothing |
| Accompaniment.BarLongEnough | abcmidi/genmidi.c:2295-2308 | a pattern that is no longer than its bars, exactly measured, never reaches over the bar line, though both are rounded |
| Accompaniment.FullBars | abcmidi/genmidi.c:545-559 | over any number of full bars each step of such a pattern is played once in each, from the bar line on, and the program is not ended |
| VStrings.VString.Extend | abcmidi/parseabc.c:184-204 | the limit doubles and the text stays |
| VStrings.VString.AddCh | abcmidi/parseabc.c:206-220 | one character is appended, within the limit and terminated |
| VStrings.VString.Clear | abcmidi/parseabc.c:236-243 | the text is emptied, the room kept |
| Numerals.ReadNumP | abcmidi/parseabc.c:375-389 | all the digits are read, as the number they stand for |
| Parts.ReadInvertsPrint | abcmidi/store.c:2745-2835 | reading any printed play order appends its expansion without error exactly when at most ten groups are nested |
| Parts.HangsIffSign | abcmidi/store.c:2766-2784 | the reader comes to an end exactly when there is no sign in what it looks at |
| Parts.TakeToken | abcmidi/store.c:2770-2829 | each branch of the loop, with the stack of offsets into the growing text |
| Parts.ReadSpec | abcmidi/store.c:2745-2835 | the loop ends with the parts and errors of the reading function, or hangs where that does |
| Lines.SplitGivesLines | abcmidi/parseabc.c:2901-2968 | exactly the lines of a text are handed on, in order, unless and only unless an empty line with a lone ending completes, in mirror image, the lone ending before it |
| Lines.AnyUniformEnding | abcmidi/parseabc.c:2901-2968 | with one of the four kinds of ending throughout, that never happens |
| Lines.ParseString | abcmidi/parseabc.c:2901-2968 | the loop with its growing line hands on those lines and counts them |
| Events.LeqTotal | src/position.cpp:53-73 | positions are totally preordered, and the two comparisons agree |
| Events.LeqTrans | src/position.cpp:64-73 | the order is transitive |
| Events.LeqIsOrder | src/position.cpp:53-73 | it is the order of the positions as numbers of bars |
| Events.InsertSplits | src/eventlist.h:27-46 | insertion puts an event behind all that are not later and before all that are |
| Events.RunKeeps | src/eventbuffer.h:43-100 | every step of either thread keeps the invariant, over every run |
| Events.EachInOnePlace | src/eventbuffer.h:43-100 | in every interleaving each event pushed is in exactly one of queue, list, delivered and recycled |
| Events.OvertakenIff | src/eventbuffer.h:43-100 | in every interleaving, of two events the one pushed later and due no earlier leaves first exactly if recycleRemaining took it from the queue while the other stood in the list |
| Events.NextLeavesInOrder | src/eventbuffer.h:65-86 | in every interleaving an event that getNextEvent gives or drops leaves behind none that was pushed before it and is due no later |
| Events.OvertakingWitness | src/eventbuffer.h:88-100 | a run in which recycleRemaining lets the second of two equal events leave first |
| EventBuffers.EventList.Insert | src/eventlist.h:27-46 | the pointer code is the sorted insertion, in each of its four cases |
| EventBuffers.EventList.Pop | src/listable.h:61-63 | the first event is unlinked |
| EventBuffers.EventList.Clear | src/listable.h:77-79 | the list is empty |
| EventBuffers.EventBuffer.AddEvent | src/eventbuffer.h:43-47 | one attempt to push succeeds exactly when there is room |
| EventBuffers.EventBuffer.Update | src/eventbuffer.h:49-59 | up to 32 events move from the queue into the list |
| EventBuffers.EventBuffer.GetNextEvent | src/eventbuffer.h:61-86 | up to 32 events are sorted in; an event of bar 0 at the head is given; while the transport rolls exactly the leading events late by more than 256 frames are recycled and the next is given if it falls within the call; standing still nothing is given or dropped |
| EventBuffers.CallAnswers | src/eventbuffer.h:61-86 | the same of the thread's steps |
| EventBuffers.EveryStepRight | src/eventbuffer.h:61-100 | in every interleaving, at every step, getNextEvent recycles only events late by more than 256 frames and gives only events of bar 0 or within the call |
| EventBuffers.EventBuffer.RecycleRemaining | src/eventbuffer.h:88-100 | the call is the thread's steps to their end; all that was in queue and list is recycled, in that order |
| EventBuffers.FinishIsRun | src/eventbuffer.h:61-100 | a whole call is one of the interleavings |

## Left out

* `NOTE`, `REST` and `CHORDOFF` in `writetrack`: trimming, expansion, slurs, beat accents, lyrics, and bar-length
  checks. The velocity of each note is part of the feature.
* A random chord attack; the attack is the fixed one between the notes of a chord.
* Separate channels for the notes of a chord, and the multi-voice fill-in at parts and voices.
* A header `P:` order in `writetrack`; split voices; `DYNAMIC` pitch bend and chords in tie resolution. The tie pass
  is modelled on a chord-free single voice.
* Writing the corrected length of a chord note back into the feature array: the model hands it on only.
* The wheel events of bent notes are one event in the log.
* The reader's positions are counted in ticks instead of bars and fractions.
* `TEMPO` in mid-tune: in a one-track file it is written with the wait under way, which it uses up
  (`abcmidi/genmidi.c:3346-3347`); the reader does not count the wait of such an event, so all that follows is early
  by it. Tempo events are not part of the model.
* The passes are each proved alone. That one after the other, in the order of `abcmidi/store.c:5966-5976`, they leave
  a list that `EndToEnd.WrittenAndReadBack` takes is stated for ties only (`TiedTune.TiedReadBack`).
* A wait or a length of 2^32 ticks or more, which the reader would cut off as well.
* EndToEnd.WrittenAndReadBack: for notes at pitches from 0 up (the truncation of a pitch to a byte is not modelled)
  and chords of up to fifty notes of different pitch, closed by a length not below theirs, on the drum channel all
  equally long. Notes on the drum channel are those the map leaves as they are; the others never end.
* EndToEnd.PhrasePlays: the same; that the queue is empty before each note follows for every beginning of a phrase.
* ClockLaws.TimestepEndsNotes: for queues of plain notes on tracks without live callbacks; `Accompaniment` deals with
  the callbacks, bent notes appear in the clock function only.
* TrackEnd.ClearQEndsAll: for queues without bent notes; it says that the notes end, not when, as the delay behind
  dropped requests counts from now.
* Sections.PlaybackUnrolls: endings with one pass number each; lists such as `[1,3` are read (`WriteTrack.Listed`) but
  not laid out in sections.
* Voices.VoiceAlone: the errors reported are said to agree for tunes without part marks only; a part mark that a search
  for voice 1 stops at is passed over and does not clear the mark of a variant ending.
* WriteTrack.NoteWriter.WriteNote: without trimming, expansion, slurs and chord channels.
* WriteTrack.NoteWriter.WriteChordEnd: without trimming and the count of bar units.
* WriteTrack.NoteWriter.Write: without lyrics, slurs, trimming and deferred commands.
* WriteTrack.WriteNotes: one note track, without trimming, slurs, bar checks and voice fill-in.
* FixReps.RepairRepeats: for tunes in which the reference point is set before it is read; what an unset one holds is
  not modelled.
* Ties.FollowTies: on a chord-free single voice.
* Ties.DoTie: on a chord-free single voice, without the removal of pitch bends.
* Ties.TieFix: on a chord-free single voice.
* GracePass.DoGrace: for groups that stand outside chords, leave no chord open, hold no change of manner, and have a
  host before the next group; in the first manner a chord in a group has a note, for otherwise the program divides by
  zero. An unclosed chord behind a group makes the program use an unset variable.
* GracePass.ApplyGraceOrig: under the same conditions.
* GracePass.ApplyGraceNew: under the same conditions.
* GracePass.RemoveFeatures: moves up what is in use; the program also copies stale slots behind the end.
* Ornaments.ExpandOrnaments: a decorated note that is also tied (`convert_tnote_to_note`) is not modelled; the
  velocities of inserted notes are not either.
* BrokenRhythm.BrokenAdjust: marks of one to three signs; the program leaves its multipliers unset for more.
* Accompaniment.BarBeginsPattern: for a pattern that has come to its end, as it has at every full bar
  (`Accompaniment.FullBars`); a bar line in the middle of one leaves its request in the queue.
* Parts.ReadSpec: the last label a caller left behind is a parameter, as the program's variable is unset at first.
* VStrings.VString.AddCh: for characters other than the terminator, which no caller appends.
* EventBuffers.EventBuffer.GetNextEvent: the methods stand without pushes in between; interleavings are the subject of
  `Events`.
* EventBuffers.EventBuffer.AddEvent: one attempt; the program repeats it until it succeeds.
* Frame offsets are an arbitrary function of the position; the collector that recycles events is not part of this model.
* Stress models, temperaments and other floating-point arithmetic; field parsing and `%%MIDI` commands; file, console
  and audio input and output.
