# Guitar practice app: metronome, tap tempo, chords, capo, player and song library

This Dafny project models the core of a web app for guitar practice. The core has these parts:

- **The persistent metronome.** A look-ahead beat scheduler sits on an audio clock. Each poll schedules every beat due in the next 0.1 s. Each beat is a main click, accented on the first beat of the bar, plus a half-beat click when eighth notes are on. The metronome also has tap tempo, tempo, time-signature, subdivision and volume controls.
- **The simple metronome.** This is the tool-panel metronome, on its ref-based ("safe") scheduler path.
- **The chord calculator.** It picks a hand-written open chord, or else an E-shape or A-shape barre chord at the right fret.
- **The capo calculator.**
- **The tab player.** It handles paged viewing, page turning with the space bar, the page indicator and the effects of changing song.
- **The add/edit song dialog.** It covers uploading images and assembling the saved record.
- **The library screen.** It covers the search filter, the YouTube id check and the admin-only add and delete actions.

## How it is modelled

Code that computes a value is written as functions, with lemmas about them.

Code that updates state is written as classes, one per component:
- `PersistentMetronome.Metronome`, `SimpleMetronome.Metronome`, `Player.Player`, `SongModal.Dialog` and `App.Library`;
- React state and refs become fields;
- handlers become methods with `modifies` frames.

The two scheduler loops are `while` loops. Each is proved against a pure recursive specification of one poll:
- `BeatSchedule.SchedulePass` for the persistent metronome;
- `SimpleMetronome.SafePass` for the simple one.

The properties of the schedule are then lemmas about these functions:
- no drift;
- no dropped or repeated beats across polls while the settings stay the same;
- click times that keep increasing across polls even when the tempo, time signature or subdivision changes between them;
- strictly increasing click times within a poll;
- accents;
- half-beat placement.

Some inputs come from outside the code and are parameters:
- audio time `now`, in seconds, and wall-clock time, in ms;
- the outcome of a confirm dialog or of a database delete;
- lower-casing (`lower`);
- the link pattern's captured id (`capture`);
- file upload (`upload`).

Times are exact reals.

## Model

| member | source | states |
|---|---|---|
| BeatSchedule.BeatsPerBar | src/components/tools/PersistentMetronome.jsx:38-44 | "3/4" gives 3, "6/8" gives 6, and every other label gives 4 (iff in each case) |
| BeatSchedule.SecondsPerBeat | src/components/tools/PersistentMetronome.jsx:59-61 | a beat is positive and lasts exactly 60/bpm seconds |
| BeatSchedule.SpanIsProduct | src/components/tools/PersistentMetronome.jsx:59-61 | adding the beat length k times comes to exactly k times the beat length |
| BeatSchedule.BeatClicks | src/components/tools/PersistentMetronome.jsx:106-116 | one beat's clicks: the main click at the beat time, accented exactly on the downbeat, then under eighth notes an unaccented half-beat click half a beat later (the facts are in `PassTimeline` and `PassBeatSpacing`) |
| BeatSchedule.SchedulePass | src/components/tools/PersistentMetronome.jsx:102-121 | one poll of the look-ahead loop, as a recursive specification; what it emits is stated by the `Pass` lemmas below |
| BeatSchedule.PassExtent | src/components/tools/PersistentMetronome.jsx:102-121 | a poll emits one or two clicks per beat; the time left for the next beat is the start plus exactly `beats` beat lengths; the bar position advances by one per beat, wrapping at the bar length |
| BeatSchedule.PassHorizon | src/components/tools/PersistentMetronome.jsx:104 | a poll schedules nothing exactly when the next beat is at or past `now + 0.1`; the last beat scheduled is before that horizon and the beat left for later is not |
| BeatSchedule.PassTimeline | src/components/tools/PersistentMetronome.jsx:102-121 | click i of a poll equals the ideal click i: the beat's time, or half a beat after it, with the accent set by the bar position |
| BeatSchedule.PassCompose | src/components/tools/PersistentMetronome.jsx:102-121 | two polls with horizons h1 <= h2 emit exactly what one poll up to h2 emits, so poll timing neither drops nor repeats a beat |
| BeatSchedule.PassClicksInWindow | src/components/tools/PersistentMetronome.jsx:104-116 | every main click falls between the start and the horizon; a half-beat click may fall at most half a beat past the horizon |
| BeatSchedule.PassStrictlyIncreasing | src/components/tools/PersistentMetronome.jsx:102-121 | click times within a poll strictly increase |
| BeatSchedule.PassBeforeNext | src/components/tools/PersistentMetronome.jsx:102-121 | every click of a poll is due before the beat time it leaves for the next poll |
| BeatSchedule.PassesChain | src/components/tools/PersistentMetronome.jsx:102-121 | a poll followed by one that picks up its beat time and bar position under any other tempo, bar length, subdivision and horizon emits strictly increasing click times overall |
| BeatSchedule.PassBeatSpacing | src/components/tools/PersistentMetronome.jsx:108-118 | half-beat clicks occur exactly at the odd positions under subdivision 2; they are never accented and sound half a beat after the main click before them; clicks one beat apart differ by exactly one beat length |
| BeatSchedule.PassAccentsFromDownbeat | src/components/tools/PersistentMetronome.jsx:108-109 | from the downbeat, a click is accented exactly when it is the main click of a beat whose number is a multiple of the bar length |
| TapTempo.Clamp | src/components/tools/PersistentMetronome.jsx:165 | the result lies in [lo, hi], equals x inside the range, and equals the nearer bound outside it |
| TapTempo.Round | src/components/tools/PersistentMetronome.jsx:163 | the result is within half a unit of x, and halves round up |
| TapTempo.Intervals | src/components/tools/PersistentMetronome.jsx:158-161 | there is one gap fewer than taps, and none for fewer than two taps |
| TapTempo.Sum | src/components/tools/PersistentMetronome.jsx:162 | the left-to-right `reduce` sum of the gaps (its value over the gaps is stated by `IntervalsTelescope`) |
| TapTempo.IntervalsTelescope | src/components/tools/PersistentMetronome.jsx:158-162 | the gaps add up to the time from the first tap to the last |
| TapTempo.MeanInterval | src/components/tools/PersistentMetronome.jsx:158-162 | the mean interval times the number of gaps is the time from the first kept tap to the last |
| TapTempo.TapBpm | src/components/tools/PersistentMetronome.jsx:162-165 | the tempo is always in [40, 300]; when 60000/mean rounds into the range, it is that rounding; a zero mean or a rounding above 300 gives 300, and a negative mean or a rounding below 40 gives 40 |
| TapTempo.Newest | src/components/tools/PersistentMetronome.jsx:154 | the result is the last min(n, length) elements |
| TapTempo.RegisterTap | src/components/tools/PersistentMetronome.jsx:140-167 | after a tap the buffer holds one to four taps and ends with the new one |
| TapTempo.RegisterTapSpec | src/components/tools/PersistentMetronome.jsx:140-167 | a gap of more than 2000 ms after the previous tap resets the buffer to the new tap and keeps the tempo; otherwise the buffer becomes the newest four taps, a lone tap keeps the tempo, and two or more set it from (now - oldest kept tap) / gaps; the tempo stays in [40, 300] and the newest tap is `now` |
| TapTempo.EvenTapsMean | src/components/tools/PersistentMetronome.jsx:158-162 | taps evenly spaced by `gap` have a mean interval of exactly `gap` |
| TapTempo.FourTapsAt500ms | src/components/tools/PersistentMetronome.jsx:140-167 | four taps 500 ms apart give 120 bpm |
| TapTempo.PauseResets | src/components/tools/PersistentMetronome.jsx:145-150 | a second tap 3 s after the first restarts the session and leaves the tempo alone |
| TapTempo.AdjustedBpm | src/components/tools/PersistentMetronome.jsx:169-171 | the step result is in [40, 300]; it is exactly bpm + amount when that is in range, 300 above the range and 40 below it |
| TapTempo.TypedBpm | src/components/tools/PersistentMetronome.jsx:207 | the typed tempo is in [40, 300]; a failed parse or 0 gives 40; an in-range value is kept; a value above 300 gives 300 and one below 40 gives 40 |
| PersistentMetronome.PeakGain | src/components/tools/PersistentMetronome.jsx:89-92 | the peak gain lies between 0 and the master volume, and an accent plays at full master volume |
| PersistentMetronome.SoundOf | src/components/tools/PersistentMetronome.jsx:77-86 | a click has the half-beat sound exactly when it is a half-beat click, the accent sound exactly when it is an accented main click, and the normal sound otherwise |
| PersistentMetronome.LoudnessOrder | src/components/tools/PersistentMetronome.jsx:92 | at any audible volume, half-beat clicks are quieter than normal clicks, which are quieter than accents |
| PersistentMetronome.PassSounds | src/components/tools/PersistentMetronome.jsx:77-92 | from a fresh start, click i is a half-beat sound at odd positions under subdivision 2, the accent sound on the first beat of each bar, and the normal sound otherwise |
| PersistentMetronome.CollectIntervals | src/components/tools/PersistentMetronome.jsx:158-161 | the interval loop computes exactly the gaps between consecutive taps |
| PersistentMetronome.Metronome.constructor | src/components/tools/PersistentMetronome.jsx:6-21 | the metronome starts at 120 bpm, 4/4, quarter notes, volume 0.7, stopped, with no taps |
| PersistentMetronome.Metronome.NextNote | src/components/tools/PersistentMetronome.jsx:59-65 | the next beat time advances by one beat length, and the bar position advances by one modulo the bar length |
| PersistentMetronome.Metronome.PlayClick | src/components/tools/PersistentMetronome.jsx:67-100 | exactly one click with the given time and flags is appended to what the audio graph received |
| PersistentMetronome.Metronome.PlayBeat | src/components/tools/PersistentMetronome.jsx:106-116 | one beat hands the audio graph its main click, accented exactly on the downbeat, then under eighth notes the unaccented half-beat click half a beat later |
| PersistentMetronome.Metronome.Scheduler | src/components/tools/PersistentMetronome.jsx:102-121 | the clicks appended and the beat time and bar position left behind are exactly those of one `SchedulePass` up to `now + 0.1`; the timer is re-armed |
| PersistentMetronome.Metronome.Tick | src/components/tools/PersistentMetronome.jsx:120 | an armed timeout runs one scheduler poll; with none armed, nothing happens |
| PersistentMetronome.Metronome.TogglePlay | src/components/tools/PersistentMetronome.jsx:123-137 | stopping disarms the timer and keeps the beat position and clicks; starting runs a poll from `now + 0.05` on the downbeat, whose first click is the accented main click at `now + 0.05`; the timer is armed exactly while playing |
| PersistentMetronome.Metronome.HandleTap | src/components/tools/PersistentMetronome.jsx:140-167 | the tap buffer and tempo become exactly `RegisterTap` of the old ones |
| PersistentMetronome.Metronome.AdjustBpm | src/components/tools/PersistentMetronome.jsx:169-171 | the tempo becomes the clamped step |
| PersistentMetronome.Metronome.SetBpmFromInput | src/components/tools/PersistentMetronome.jsx:207 | the tempo becomes the parsed, defaulted and clamped typed value |
| PersistentMetronome.Metronome.SetBpmFromSlider | src/components/tools/PersistentMetronome.jsx:213-218 | the tempo becomes the slider value (40 to 240) |
| PersistentMetronome.Metronome.SetTimeSignature | src/components/tools/PersistentMetronome.jsx:229-232 | the time signature becomes the chosen label |
| PersistentMetronome.Metronome.SetSubdivision | src/components/tools/PersistentMetronome.jsx:247-258 | the subdivision becomes 1 or 2 |
| PersistentMetronome.Metronome.SetVolume | src/components/tools/PersistentMetronome.jsx:272-279 | the volume becomes the slider value in [0, 1] |
| PersistentMetronome.Metronome.Unmount | src/components/tools/PersistentMetronome.jsx:53-56 | unmounting leaves no timeout armed |
| SimpleMetronome.SafePassTimeline | src/components/tools/Metronome.jsx:96-103 | click i is exactly i beats after the start; the clock ends one beat after the last click; every click is before the horizon and the clock is not; the poll is empty exactly when the start is at or past the horizon |
| SimpleMetronome.SafePass | src/components/tools/Metronome.jsx:96-103 | one poll of the simple scheduler: the clock left behind is at or past the horizon, and the poll emits nothing exactly when the start is at or past it |
| SimpleMetronome.SafePassSpacing | src/components/tools/Metronome.jsx:96-103 | consecutive clicks are exactly one beat apart, and click times strictly increase |
| SimpleMetronome.SafePassIsPlainPass | src/components/tools/Metronome.jsx:96-103 | the simple poll equals the full scheduler's poll with a one-beat bar and no subdivision |
| SimpleMetronome.Metronome.constructor | src/components/tools/Metronome.jsx:5-11 | the metronome starts at 120 bpm in both state and ref, stopped, with no audio context |
| SimpleMetronome.Metronome.SetBpm | src/components/tools/Metronome.jsx:134-140 | the slider sets the tempo within 40 to 200 |
| SimpleMetronome.Metronome.SyncBpmRef | src/components/tools/Metronome.jsx:79-82 | the ref the scheduler reads takes the slider tempo |
| SimpleMetronome.Metronome.NextNoteSafe | src/components/tools/Metronome.jsx:85-88 | the clock advances by one beat at the ref's tempo |
| SimpleMetronome.Metronome.SchedulerSafe | src/components/tools/Metronome.jsx:96-103 | the clicks appended and the clock left behind are exactly one `SafePass` up to `now + 0.1`; the timer is re-armed |
| SimpleMetronome.Metronome.Tick | src/components/tools/Metronome.jsx:102 | an armed timeout runs one poll; with none armed, nothing happens |
| SimpleMetronome.Metronome.TogglePlaySafe | src/components/tools/Metronome.jsx:105-120 | stopping only disarms the timer; starting creates the context and runs a poll from `now + 0.05`, whose first click is at `now + 0.05` |
| ChordLogic.GetNoteIndex | src/utils/chordLogic.js:103 | a name has a pitch class exactly when it is a sharp name or one of the five flats, and the class is in 0..11 |
| ChordLogic.SharpsIndexed | src/utils/chordLogic.js:2-18 | each sharp name maps to its position in the note list |
| ChordLogic.FlatsAliased | src/utils/chordLogic.js:21-25 | Db, Eb, Gb, Ab and Bb map to the classes of C#, D#, F#, G# and A# |
| ChordLogic.NoteIndexSpec | src/utils/chordLogic.js:2-25 | every note name gives its index, and each flat gives the same class as its sharp spelling |
| ChordLogic.FretFor | src/utils/chordLogic.js:124-132 | the fret agrees with root minus open string mod 12, and lies in 0..11 whenever that difference is less than an octave either way |
| ChordLogic.FretForSpec | src/utils/chordLogic.js:124-132 | the wrapped fret is (root - open string) mod 12, lies in 0..11, and sounds the root on that string |
| ChordLogic.UsesSixthString | src/utils/chordLogic.js:141-150 | the E-shape test: the E fret is above the nut and not above the A fret (its consequences are in `ShapeChoice`) |
| ChordLogic.CalculateChord | src/utils/chordLogic.js:110-168 | any voicing is named "root quality" |
| ChordLogic.OpenChordFirst | src/utils/chordLogic.js:112-115 | an open chord is returned first, with its own frets, fingers and barre, at base fret 0 |
| ChordLogic.ShapeKeys | src/utils/chordLogic.js:57-79 | a movable-shape key exists exactly when its quality is one of the five offered |
| ChordLogic.QualityKey | src/utils/chordLogic.js:57-79 | both root strings have a shape for every offered quality |
| ChordLogic.KeyQuality | src/utils/chordLogic.js:57-79 | every movable-shape key is a string prefix followed by an offered quality |
| ChordLogic.BarreChordSpec | src/utils/chordLogic.js:117-167 | with no open chord: an unknown root gives nothing; a known root gives a voicing exactly when the quality is offered; the voicing has the table's frets and fingers, sits at the chosen string's fret, is barred at relative fret 1 over 6 or 5 strings, and sounds the root |
| ChordLogic.ShapeChoice | src/utils/chordLogic.js:141-150 | the E shape is used exactly when its fret is above the nut and not above the A-shape fret; otherwise the A shape is strictly lower whenever the E fret is above the nut |
| ChordLogic.EveryChordDefined | src/utils/chordLogic.js:170-171 | every listed root has a voicing in every listed quality |
| Capo.IndexOf | src/components/tools/CapoCalculator.jsx:35-36 | `indexOf` returns -1 exactly when the key is absent, and otherwise the first position holding it |
| Capo.Gap | src/components/tools/CapoCalculator.jsx:37-38 | the difference wrapped once into the octave (its arithmetic is in `GapSpec`) |
| Capo.CalculateCapo | src/components/tools/CapoCalculator.jsx:34-40 | the capo is always in 0..12, and 12 only when the shape key is missing from the list |
| Capo.GetCapoPosition | src/components/tools/CapoCalculator.jsx:9-17 | the first form of the computation always agrees with `calculateCapo` |
| Capo.GapSpec | src/components/tools/CapoCalculator.jsx:37-38 | on two pitch classes, the wrapped gap is the difference mod 12, lies in 0..11, is 0 only for equal classes, and carries the lower class to the upper |
| Capo.IndexGap | src/components/tools/CapoCalculator.jsx:34-40 | in any twelve-entry list, the wrapped gap between two entries' positions is their difference mod 12, lies in 0..11, is 0 exactly for equal entries, and carries the lower position to the upper |
| Capo.CapoSpec | src/components/tools/CapoCalculator.jsx:34-40 | for keys the selects offer, the capo fret is (vocal - shape) mod 12, lies in 0..11, is 0 exactly for equal keys, and moves the shape key onto the vocal key |
| Capo.CapoUnique | src/components/tools/CapoCalculator.jsx:34-40 | no other fret below 12 moves the shape key onto the vocal key |
| Capo.CapoSwap | src/components/tools/CapoCalculator.jsx:34-40 | for distinct keys, swapping the two gives frets that add up to 12 |
| Capo.UnknownKeyOutOfRange | src/components/tools/CapoCalculator.jsx:35-38 | a key missing from the list counts as -1: ("H", "C") gives 11 and ("C", "H") gives 1, which do not measure any interval, and ("B", "H") gives 12, outside the first eleven frets |
| Player.TabImages | src/components/Player.jsx:143 | a non-empty image list is shown as is; otherwise the single legacy image if set, else nothing |
| Player.Slice | src/components/Player.jsx:148-150 | `slice` clips to the list: in-range bounds give the exact slice, a start past the end gives nothing |
| Player.PagedUrls | src/components/Player.jsx:154-157 | the list the page turner steps through is empty or the shown image list, and it has more than one image exactly when the shown list does |
| Player.CurrentPageImages | src/components/Player.jsx:141-151 | with no song nothing is shown, and every image shown belongs to the song's image list |
| Player.CurrentPageImagesSpec | src/components/Player.jsx:141-151 | a list of at most one image is shown whole; a longer one shows the images at the page index and the next (one at the end, none past it) |
| Player.NextIndex | src/components/Player.jsx:153-161 | a page turn moves to the pair two on when an image lies there, otherwise back to 0; on a non-empty list the index stays in range |
| Player.PageCycle | src/components/Player.jsx:153-161 | turning from the first page, page k starts at image 2k, and after the last page the view returns to the first |
| Player.PagesCoverAll | src/components/Player.jsx:145-150 | read in turn, the pages show every image exactly once and in order |
| Player.PagesFromIndex | src/components/Player.jsx:145-150 | page k of the pages read from a position is the pair that starts 2k images later |
| Player.PageShown | src/components/Player.jsx:141-161 | after k page turns from the first page, the screen shows exactly page k of the image list read in turn |
| Player.PageIndicator | src/components/Player.jsx:255-286 | in paged view, the indicator appears exactly for more than two images; it reads page index + 1, then the last image shown, then the list length; with the page index in range, first <= last <= total and the range covers exactly the images on screen |
| Player.Player.constructor | src/components/Player.jsx:6-13 | the player starts with no song, paged view, first page, not scrolling, at speed 1 |
| Player.Player.SelectSong | src/components/Player.jsx:40-45 | a song different from the open one restores its saved speed (1 if none), stops scrolling and shows the first page; selecting the open song again, or no song, leaves speed, scrolling and page as they were |
| Player.Player.NextPage | src/components/Player.jsx:153-161 | the page index moves two on, or wraps to 0; it keeps the page index even and in range |
| Player.Player.HandleKeyDown | src/components/Player.jsx:112-121 | the space bar turns the page only with a song open in paged view |
| Player.Player.ToggleViewMode | src/components/Player.jsx:300 | the button switches between paged and scroll |
| Player.ValidShowsSomething | src/components/Player.jsx:141-161 | with a valid page index, a song that has images never shows an empty page |
| SongModal.WithoutIndexSpec | src/components/SongModal.jsx:55-57 | removing index i drops exactly that image and keeps the rest in order; an index outside the list changes nothing |
| SongModal.InitialImages | src/components/SongModal.jsx:29-35 | an edited song starts with its image list whenever it is an array (even empty), else with its single legacy image if set, else with none |
| SongModal.WithoutIndex | src/components/SongModal.jsx:55-57 | removing by index shortens the list by one for an index inside it, keeps its length otherwise, and adds no image |
| SongModal.AssembleRecordSpec | src/components/SongModal.jsx:79-87 | the saved list is the kept images, then the uploaded ones; its first image is the legacy image; the title length is recorded; a creation time is present exactly when adding |
| SongModal.AssembleRecord | src/components/SongModal.jsx:79-87 | the saved list holds every kept and uploaded image, and the legacy image is its first entry |
| SongModal.UploadAll | src/components/SongModal.jsx:71-77 | the upload loop succeeds exactly when every file uploads, and then returns one URL per file, in order |
| SongModal.Dialog.constructor | src/components/SongModal.jsx:7-15 | the dialog starts closed and empty, with no error |
| SongModal.Dialog.Open | src/components/SongModal.jsx:17-41 | opening clears the error, the files and the busy flag; editing a song loads its fields and images; anything else starts blank |
| SongModal.Dialog.SelectFiles | src/components/SongModal.jsx:45-53 | choosing files stores them and clears the error |
| SongModal.Dialog.RemoveExisting | src/components/SongModal.jsx:55-57 | the kept images lose the one at the given index |
| SongModal.Dialog.Submit | src/components/SongModal.jsx:59-97 | with no image, an error is shown and nothing is saved; otherwise a save happens exactly when every upload succeeds; a failure shows the save error and keeps the dialog open; a success closes it and saves the kept images followed by the uploaded URLs, with the form fields, the title length, the first image and (when adding) the creation time |
| App.IncludesSpec | src/App.jsx:396-399 | `includes` holds exactly when some slice of the string equals the term |
| App.Includes | src/App.jsx:397-398 | `includes`, tried at each start in turn (characterised by `IncludesSpec`) |
| App.Matches | src/App.jsx:397-398 | the search test on lower-cased title or artist |
| App.FilteredSongs | src/App.jsx:396-399 | the filtered list is never longer than the library |
| App.FilteredSongsSpec | src/App.jsx:396-399 | the filtered list keeps library order, and a song is in it exactly when it is in the library and its lower-cased title or artist contains the lower-cased term |
| App.EmptySearchKeepsAll | src/App.jsx:396-399 | an empty search term lists every song |
| App.GetYouTubeEmbedId | src/App.jsx:389-394 | an empty link gives nothing; any id returned is the captured one and is 11 characters long; an 11-character capture is always returned |
| App.Library.constructor | src/App.jsx:282-284 | the library starts with the given role, no open song and no writes sent |
| App.Library.HandleAddSong | src/App.jsx:363-372 | only an admin sends the add write |
| App.Library.HandleDeleteSong | src/App.jsx:374-387 | only a confirming admin sends the delete write; the open song closes exactly when the delete succeeded and it was the deleted song |

## Left out

- Sound synthesis is not modelled: oscillator types, frequencies, gain envelopes and the audio context's suspend and resume. A click is recorded as its time and its accent and subdivision flags. Its sound class and peak gain are separate functions.
- Scheduler: the source re-reads the audio clock on every loop test. The model reads it once per poll, as `now`.
- The 25 ms lookahead timer is modelled only as a flag saying a timeout is armed. When the timer fires and the clock moves are parameters.
- The persistent metronome copies settings into refs with effects. The model reads the settings directly, so a setting always applies from the next beat.
- The simple metronome's ref synchronisation is kept as an explicit step (`SyncBpmRef`).
- The simple metronome's first scheduler, which captures `bpm` in a stale closure (src/components/tools/Metronome.jsx:15-62), is not modelled. It is never called; the play button uses the "safe" path.
- PersistentMetronome.Metronome.Unmount: only the cancelled timeout is modelled. Closing the audio context is not.
- Times are exact reals, not IEEE doubles. Rounding of 60/bpm and of repeated additions is not modelled.
- `Date.now` and the audio clock are parameters.
- JavaScript property lookups on plain objects are taken as plain maps. Prototype keys such as "constructor" are not modelled.
- The unused CAGED shape table (src/utils/chordLogic.js:27-52) is not part of the model, and neither is chord-diagram rendering.
- Strings count characters, not UTF-16 code units.
- `toLowerCase` is the parameter `lower`.
- Link parsing is the parameter `capture`: the capture group of the link pattern, or nothing when the pattern does not match. The regular expression itself is not modelled.
- Player.jsx:32-37 has a copy of the same link check; `App.GetYouTubeEmbedId` stands for both.
- The YouTube player, auto-scroll animation, scroll-speed saving, authentication and all Firebase reads and writes are not modelled. The library records the writes it sends; whether a delete succeeded is a parameter.
- SongModal.Dialog.SelectFiles: files are taken already sorted. The natural-order `localeCompare` sort is not modelled.
- SongModal.Dialog.Submit: the record is returned instead of passed to `onSave`, and the save itself is assumed to succeed. Upload file names, which carry `Date.now`, are not modelled.
- SongModal.Dialog.Submit: the error messages are the constants `NoImageError` and `SaveError`. The source's localized texts, and the exception message appended to the save error, are not modelled.
- The tap reset follows the code. A tap resets the session when the previous buffer is non-empty and the new gap exceeds 2000 ms.
- Capo.CapoSpec: the arithmetic contract holds only for keys in the key list. The selects offer nothing else; `UnknownKeyOutOfRange` shows what other strings give.
- Player.Player.SelectSong: React re-runs the song effect only when the song object changes. The model has no object identity and compares songs by value, so re-selecting an equal copy of the open song (say, reloaded from the database) resets nothing here, while the source would reset.
