# Night Quad roster: a Dafny model

This project models the logic of a small React roster widget: a list of
residence-hall members that can be searched, added, edited and deleted, and
the sound engine that plays short tones as feedback.

- `roster.dfy` (module `Roster`) models `src/App.jsx`.
  - The search filter, the save rule (edit-merge or prepend) and delete by id
    are functions over `seq<Member>`.
  - So are the modal's `confirm` parsing and its form initialisation.
  - A class `RosterApp` holds the screen's React state (`list`, `query`,
    `open`, `editing` and the modal's form). Its methods replace that state
    the way the event handlers do, and they drive the sound engine.
- `audio.dfy` (module `Audio`) models `src/components/AudioProvider.jsx` as
  a class `AudioEngine`. It covers:
  - three persisted preferences;
  - a device created on the first user gesture;
  - one gate in front of every tone;
  - the success and delete two-note chimes;
  - a keystroke shimmer with a 300 ms cooldown that drops requests instead of
    queueing them.

  Time is a logical millisecond clock. Each scheduled tone is appended to a
  log as (frequency, duration, gain, start time).
- `text.dfy` (module `Text`) gives JavaScript's string operations as they are
  used here: `trim`, `toLowerCase`, `includes`, `split` on one character, and
  `join`.
- `wrappers.dfy` holds `Option`.

The chimes are recorded when they are scheduled. The second note of a chime
is delayed by `setTimeout`, and its closure runs `playTinn` with the
preference values of the original call. Those values just passed the gate,
and the device reference is never cleared. So both notes are recorded at
call time, the second one 70 ms (success) or 60 ms (delete) later.

Some behaviour of the sound component is easy to misread. The model keeps
what its code does:

- The preferences are stored under the keys `nightquad_sound_enabled`,
  `nightquad_sound_volume` and `nightquad_keypress_shimmer`
  (`src/components/AudioProvider.jsx:23-27`).
- `primeAudio` marks itself primed only when the audio context is actually
  created (`src/components/AudioProvider.jsx:53-55`). A missing or throwing
  constructor leaves it unprimed, so the next gesture tries again.
- A stored volume that is not a number parses to `NaN`, and `Math.min` and
  `Math.max` keep the `NaN` (`src/components/AudioProvider.jsx:36`). There is
  no fallback to 0.3 for such a value; `ClampNum` keeps the `NaN`.
- `reducedMotion` is read on every render of the component
  (`src/components/AudioProvider.jsx:43`). The model reads it once, as a
  constructor parameter.

## Model

| member | source | states |
|---|---|---|
| `Text.Trim` | src/App.jsx:97 | the result has no whitespace at either end, and it is empty exactly when the input is all whitespace (the ECMAScript whitespace and line-terminator set) |
| `Text.TrimStrips` | src/App.jsx:97 | the result of `trim` is a run of the input, and everything removed before and after it is whitespace |
| `Text.TrimAfterSpace` | src/App.jsx:205 | trimming whitespace followed by a trimmed non-empty text gives that text |
| `Text.Lower` | src/App.jsx:97 | lower-casing keeps the length; each upper-case ASCII letter becomes its lower-case letter, every other character is kept, and no upper-case ASCII letter is left |
| `Text.Contains` | src/App.jsx:100 | `includes` holds exactly when the query occurs at some position of the text |
| `Text.Split` | src/App.jsx:205 | `split` on one character gives at least one piece, and no piece contains the separator |
| `Text.Join` | src/App.jsx:194 | `join` of no parts is empty, and otherwise the text starts with the first part |
| `Text.JoinLength` | src/App.jsx:194 | the joined text is as long as all the parts plus one separator between each two |
| `Text.JoinSplit` | src/App.jsx:205 | joining the pieces of `split` with the separator gives back the original text |
| `Text.SplitAfterPiece` | src/App.jsx:205 | a separator-free piece followed by the separator splits off as the first piece |
| `Text.SplitNoSeparator` | src/App.jsx:205 | a text without the separator splits into itself alone |
| `Roster.Filter` | src/App.jsx:99 | `filter` never makes a list longer (with `FilterMembers`, `FilterKeepsOrder` and `FilterKeepsCount` as its partners) |
| `Roster.FilterMembers` | src/App.jsx:99 | an element survives `filter` exactly when it is in the list and passes the test |
| `Roster.FilterKeepsOrder` | src/App.jsx:99 | `filter` gives an order-preserving sublist of its input |
| `Roster.FilterKeepsCount` | src/App.jsx:116 | `filter` keeps every passing element as many times as it occurs, and drops every failing one |
| `Roster.FilterTwice` | src/App.jsx:116 | filtering twice by the same test equals filtering once |
| `Roster.Search` | src/App.jsx:96-102 | a query that trims to nothing shows the whole list; otherwise the result is an order-preserving sublist, and a member is in it exactly when some field or tag, lower-cased, contains the trimmed, lower-cased query |
| `Roster.SearchKeepsCount` | src/App.jsx:99-101 | for a non-blank query, every matching record is kept as many times as it occurs in the roster, and every other record is dropped |
| `Roster.Merge` | src/App.jsx:106 | the merged record keeps the edited record's id, and its name, major, year and tags are exactly the form's |
| `Roster.Save` | src/App.jsx:104-109 | while editing: same length and same ids; the record with the edited id becomes the edited id with the form's fields; every other record is unchanged in place. Otherwise one new record with the fresh id and the form's fields comes first, and the old list follows unchanged |
| `Roster.Delete` | src/App.jsx:115-116 | no record with the id is left; every other record stays, as often as before and in its original order |
| `Roster.DeleteTwice` | src/App.jsx:115-116 | deleting the same id twice equals deleting it once |
| `Roster.TrimAll` | src/App.jsx:205 | one piece for each input piece, in order, each the trimmed input piece, so none has whitespace at either end |
| `Roster.ParseTags` | src/App.jsx:205 | every parsed tag is non-empty and has no whitespace at either end |
| `Roster.ParseForm` | src/App.jsx:203-206 | no profile exactly when the name is blank after trimming; otherwise the name (non-empty) and major are trimmed, the year is as selected and the tags are parsed |
| `Roster.FormFor` | src/App.jsx:191-201 | without a record: empty name and major, `Freshman` and no tags; with one: its name and major, its year (`Freshman` when empty) and its tags joined by `", "` |
| `Roster.ParseBlank` | src/App.jsx:205 | a comma-free run of whitespace parses to no tags |
| `Roster.ParseSingle` | src/App.jsx:205 | whitespace followed by one well-formed tag parses to that tag |
| `Roster.ParseFirst` | src/App.jsx:205 | whitespace, a well-formed tag and a comma: that tag comes first, followed by whatever the rest of the text parses to |
| `Roster.ParseJoinedStep` | src/App.jsx:194-205 | if the tags after the first round-trip, the whole list does |
| `Roster.ParseJoinedTags` | src/App.jsx:194-205 | well-formed tags joined by `", "` after comma-free whitespace parse back to the same list |
| `Roster.TagsRoundTrip` | src/App.jsx:194-205 | non-empty, trimmed, comma-free tags joined with `", "` and parsed with `confirm`'s rule come back unchanged |
| `Roster.FormRoundTrip` | src/App.jsx:191-205 | a record the form could have saved, loaded into the form and confirmed unchanged, gives back its own name, major, year and tags |
| `Roster.SaveReproducing` | src/App.jsx:105-106 | saving over records that the merge reproduces leaves the list as it was |
| `Roster.SaveOwnFieldsKeepsRoster` | src/App.jsx:105-106 | with unique ids, saving a listed record's own fields while editing it leaves the list as it was |
| `Roster.EditUnchangedKeepsRoster` | src/App.jsx:191-206 | opening a well-formed record for editing and saving without changes is accepted, and it leaves a roster with unique ids unchanged |
| `Roster.SeedRoster` | src/App.jsx:7-16 | the fallback roster holds eight members with distinct ids |
| `Roster.RosterApp.constructor` | src/App.jsx:25-33 | a stored roster that is missing or does not parse gives the seed roster; the search is empty and the modal is closed with no record |
| `Roster.RosterApp.SetEditing` | src/App.jsx:196-201 | the edited record is set; the form is re-initialised only when that record changes |
| `Roster.RosterApp.TypeQuery` | src/App.jsx:135 | the query is replaced, with the roster unchanged, so the visible list is the search for the new query; when the shimmer gate is open exactly one tick is logged and the 300 ms cooldown starts, otherwise the log and the cooldown are unchanged |
| `Roster.RosterApp.BlurQuery` | src/App.jsx:137 | an 880 Hz tone with the default duration and gain is logged when the gate is open, and nothing otherwise |
| `Roster.RosterApp.StartAdd` | src/App.jsx:139 | the modal opens with no record; the form is reset only if a record was being edited |
| `Roster.RosterApp.StartEdit` | src/App.jsx:173 | the modal opens on the record; the form is loaded from it unless it was already the edited record |
| `Roster.RosterApp.Close` | src/App.jsx:181 | the modal closes and editing ends |
| `Roster.RosterApp.EditField` | src/App.jsx:218-232 | only the edited field changes; the name, major and tags fields request a shimmer (one tick and a new cooldown when the gate is open), the year selector leaves the log and the cooldown alone |
| `Roster.BlurFreq` | src/App.jsx:218-232 | each form field has its own blur pitch: 880 Hz name, 784 Hz major, 698 Hz year, 988 Hz tags |
| `Roster.RosterApp.BlurField` | src/App.jsx:218-232 | a field losing focus logs one tone at that field's pitch (880, 784, 698 or 988 Hz) when the gate is open |
| `Roster.RosterApp.OnSave` | src/App.jsx:104-113 | the list becomes `Save` of the old list; the success chime is logged when the gate is open; the modal closes and editing ends |
| `Roster.RosterApp.Confirm` | src/App.jsx:203-206 | a blank name changes nothing, with no list change, no chime and the modal still open; otherwise the parsed profile is saved, the success chime is logged when the gate is open, the modal closes, editing ends and the form is reset if a record was being edited |
| `Roster.RosterApp.OnDelete` | src/App.jsx:115-118 | the list becomes `Delete` of the old list, and the delete chime is logged when the gate is open |
| `Audio.Clamp` | src/components/AudioProvider.jsx:146 | the result lies in [0,1]; it equals the input inside that range, 0 below it and 1 above it |
| `Audio.ClampNum` | src/components/AudioProvider.jsx:36 | a finite result lies in [0,1]; NaN comes out exactly when NaN goes in; finite numbers are clamped, +Infinity gives 1 and -Infinity gives 0 |
| `Audio.LoadPrefs` | src/components/AudioProvider.jsx:23-41 | a missing enabled key gives true, otherwise enabled means "stored as `true`"; a missing volume key gives 0.3, otherwise the clamped parse; the shimmer is on only when stored as `true` |
| `Audio.Persist` | src/components/AudioProvider.jsx:61-68 | all three preferences are written as strings under their keys, and no other key changes; reloading gives back both booleans exactly, and the volume whenever parsing inverts the number-to-string conversion |
| `Audio.ResolveTone` | src/components/AudioProvider.jsx:71 | an absent option defaults to 880 Hz, 0.22 s or 0.9 of the volume |
| `Audio.Voicing` | src/components/AudioProvider.jsx:88-106 | the low-pass cutoff is the smaller of 8000 Hz and six times the frequency; the envelope peak is the larger of the gain and the 0.0001 floor; the oscillators stop 0.02 s after the nominal duration |
| `Audio.SuccessTones` | src/components/AudioProvider.jsx:114-116 | two notes, rising in pitch, 70 ms apart |
| `Audio.ShimmerTone` | src/components/AudioProvider.jsx:138 | the tick is the tone `playTinn` resolves from 740 Hz, 0.08 s and 0.2 of the volume, quieter than a default tone at any audible volume |
| `Audio.DeleteTones` | src/components/AudioProvider.jsx:124-125 | two notes, falling in pitch, 60 ms apart |
| `Audio.AudioEngine.constructor` | src/components/AudioProvider.jsx:30-68 | the preferences are loaded, no device exists, nothing is primed or logged, and storage holds the three preferences |
| `Audio.AudioEngine.PrimeAudio` | src/components/AudioProvider.jsx:49-59 | nothing changes once primed; otherwise it becomes primed exactly when the constructor creates a device; a device is created at most once; primed holds exactly when the device exists |
| `Audio.AudioEngine.SetEnabled` | src/components/AudioProvider.jsx:144 | the flag is set and the three preferences are persisted again |
| `Audio.AudioEngine.SetVolume` | src/components/AudioProvider.jsx:146 | the volume becomes the input clamped to [0,1], which keeps it in range, and it is persisted |
| `Audio.AudioEngine.SetKeypressShimmer` | src/components/AudioProvider.jsx:148 | the toggle is set and the three preferences are persisted again |
| `Audio.AudioEngine.PlayTinn` | src/components/AudioProvider.jsx:71-74 | exactly one tone, with the options or their defaults, is logged when sound is enabled, reduced motion is off and a device exists; otherwise nothing is logged |
| `Audio.AudioEngine.PlaySuccess` | src/components/AudioProvider.jsx:110-117 | behind the same gate, 932 Hz / 0.18 s / 0.9 of the volume now and 1244 Hz / 0.16 s / 0.8 of the volume 70 ms later are logged; otherwise nothing |
| `Audio.AudioEngine.PlayDelete` | src/components/AudioProvider.jsx:120-126 | behind the same gate, 392 Hz / 0.16 s / 0.7 of the volume now and 330 Hz / 0.12 s / 0.6 of the volume 60 ms later are logged; otherwise nothing |
| `Audio.AudioEngine.PlayShimmer` | src/components/AudioProvider.jsx:129-139 | with the shimmer on, the gate open and no cooldown: one 740 Hz / 0.08 s / 0.2 of the volume tick is logged and a 300 ms cooldown starts; otherwise the request is dropped, with the log and the cooldown unchanged |
| `Audio.AudioEngine.Advance` | src/components/AudioProvider.jsx:135-137 | the clock moves forward, and a cooldown that is due is cleared |
| `Audio.FirstSuccessChime` | src/components/AudioProvider.jsx:110-117 | a fresh engine with nothing stored starts with sound on, volume 0.3 and the shimmer off; after priming, a save logs 932 Hz at 0 ms and 1244 Hz at 70 ms |
| `Audio.ShimmerTwice` | src/components/AudioProvider.jsx:129-139 | of two shimmer requests `gap` ms apart, the second plays only when `gap` is at least 300 ms |

## Left out

- `src/components/ui.jsx` is not part of this model. Its components are styling and animation with no behaviour to state.
- Presentation in `src/App.jsx` is left out: the starfield, the settings bar markup, the card grid and the motion properties.
- The Export button is left out. It is browser file I/O (a Blob, an object URL and an anchor download).
- `localStorage` and the JSON encoding of the roster are left out. A stored roster is given as missing, unparsable or parsed, and the model keeps only the fallback to the seed. Writing the roster back is not modelled.
- `Date.now()` ids are not generated. The new id is a parameter, because the code does not make ids unique.
- Real timers are left out. The 60 and 70 ms delays and the 300 ms cooldown use a logical clock that only `Advance` moves.
- The Web Audio node graph is left out: oscillator types, the detuned second oscillator (`Math.round(freq * 1.997)`) and the exponential ramps. `Voicing` keeps only the cutoff, the envelope peak and the stop offset.
- JavaScript numbers are doubles, but the model computes with exact `real`s. Gains such as `volume * 0.9`, the cutoff `freq * 6` and the stop offset `duration + 0.02` are not rounded.
- `localStorage.getItem` and `setItem` in `src/components/AudioProvider.jsx` are not guarded, so a storage that throws breaks the component. The model's `Store` is a map that never fails.
- `parseFloat` and `String(number)` are taken as parameters. A JavaScript number from `parseFloat` is `Finite`, `PosInf`, `NegInf` or `NaN`.
- `Audio.AudioEngine.constructor` requires the loaded volume to be finite. A stored volume that parses to `NaN` would make every later gain `NaN`; the model does not follow that case past `LoadPrefs`.
- `matchMedia` is left out. `reducedMotion` is a constructor parameter and a constant afterwards.
- `Text.Trim`: its own contract gives the shape of the result. That only surrounding whitespace is removed is stated by the separate lemma `Text.TrimStrips`, so that proofs which use `Trim` stay small.
- `Roster.Search`: its own contract gives membership and order. That each matching record is kept as often as it occurs is stated by the separate lemma `Roster.SearchKeepsCount`, for the same reason.
- `Text.Join`: the length of the joined text is stated by the separate lemma `Text.JoinLength`.
- `Text.Lower`: only ASCII letters are lower-cased. Unicode case mapping is not modelled.
- `Roster.Search` does not model `String(v)` coercion of non-string fields. Every field and tag is a string here.
- `Roster.Member` holds only the five fields the widget uses. The extra properties that an object spread would carry over from stored data are not modelled.
- `Roster.RosterApp.TypeQuery` does not restate `Visible() == Search(list, q)`. It follows from `query == q`, the unchanged roster and the definition of `Visible`, and stating it made the proof of the shimmer clauses expensive.
- `Roster.RosterApp.Visible` is not a separate member of the source. It stands for the memoised `filtered` list that the grid renders.
