/**
 * The roster screen (`RosterApp` and `PersonModal`): a list of member
 * records that can be searched, saved (edited in place or prepended) and
 * deleted, and the modal form that turns text fields into a record.
 */
module Roster {
  import opened Wrappers
  import opened Text
  import Audio

  /** A roster record; `tags` may be missing in stored data and then reads as none. */
  datatype Member = Member(id: string, name: string, major: string, year: string, tags: Option<seq<string>>)

  /** What the form hands to `onSave`: every field but the id. */
  datatype Profile = Profile(name: string, major: string, year: string, tags: seq<string>)

  /** The modal's four text fields; `tags` is the comma-separated text. */
  datatype Form = Form(name: string, major: string, year: string, tags: string)

  datatype FormField = NameField | MajorField | YearField | TagsField

  /** What `localStorage` held under the roster key at start-up. */
  datatype StoredRoster = Absent | Unparsable | Parsed(members: seq<Member>)

  function TagsOf(m: Member): seq<string> {
    m.tags.GetOr([])
  }

  /** The searchable texts of a record: name, major, year, then every tag. */
  function Fields(m: Member): seq<string> {
    [m.name, m.major, m.year] + TagsOf(m)
  }

  /** Some searchable text of `m`, lower-cased, contains `q`. */
  predicate Matches(m: Member, q: string) {
    exists k :: 0 <= k < |Fields(m)| && Contains(Lower(Fields(m)[k]), q)
  }

  predicate UniqueIds(list: seq<Member>) {
    forall i, j :: 0 <= i < j < |list| ==> list[i].id != list[j].id
  }

  /** `a` is `b` with some elements left out, the rest in their original order. */
  predicate IsSubsequence<T(==,!new)>(a: seq<T>, b: seq<T>)
    decreases |b|
  {
    if a == [] then true
    else if b == [] then false
    else if a[0] == b[0] then IsSubsequence(a[1..], b[1..])
    else IsSubsequence(a, b[1..])
  }

  /** `Array.prototype.filter`. */
  function Filter<T>(s: seq<T>, keep: T -> bool): (r: seq<T>)
    ensures |r| <= |s|
  {
    if s == [] then []
    else if keep(s[0]) then [s[0]] + Filter(s[1..], keep)
    else Filter(s[1..], keep)
  }

  /** Exactly the elements of `s` that pass `keep` survive `filter`. */
  lemma {:induction false} FilterMembers<T(!new)>(s: seq<T>, keep: T -> bool)
    ensures forall x :: x in Filter(s, keep) <==> x in s && keep(x)
  {
    if s != [] {
      FilterMembers(s[1..], keep);
      assert s == [s[0]] + s[1..];
    }
  }

  /** `filter` keeps the survivors in their original order. */
  lemma {:induction false} FilterKeepsOrder<T(!new)>(s: seq<T>, keep: T -> bool)
    ensures IsSubsequence(Filter(s, keep), s)
  {
    if s != [] {
      FilterKeepsOrder(s[1..], keep);
      var rest := Filter(s[1..], keep);
      if !keep(s[0]) && rest != [] {
        FilterMembers(s[1..], keep);
        assert rest[0] in rest;
      }
    }
  }

  /** `filter` keeps every survivor as often as it occurs in `s`. */
  lemma {:induction false} FilterKeepsCount<T(!new)>(s: seq<T>, keep: T -> bool, x: T)
    ensures multiset(Filter(s, keep))[x] == if keep(x) then multiset(s)[x] else 0
  {
    if s != [] {
      FilterKeepsCount(s[1..], keep, x);
      assert s == [s[0]] + s[1..];
    }
  }

  /** Filtering twice by the same test is filtering once. */
  lemma {:induction false} FilterTwice<T(!new)>(s: seq<T>, keep: T -> bool)
    ensures Filter(Filter(s, keep), keep) == Filter(s, keep)
  {
    if s != [] {
      FilterTwice(s[1..], keep);
      if keep(s[0]) {
        assert ([s[0]] + Filter(s[1..], keep))[1..] == Filter(s[1..], keep);
      }
    }
  }

  /**
   * The `filtered` list: a query that trims to nothing shows the whole
   * list; otherwise exactly the records some field of which, lower-cased,
   * contains the trimmed, lower-cased query, in roster order.
   */
  function Search(list: seq<Member>, query: string): (r: seq<Member>)
    ensures AllSpace(query) ==> r == list
    ensures !AllSpace(query) ==> IsSubsequence(r, list)
    ensures !AllSpace(query) ==> forall m :: m in r <==> m in list && Matches(m, Lower(Trim(query)))
  {
    var q := Lower(Trim(query));
    if q == [] then list
    else
      var keep := (m: Member) => Matches(m, q);
      FilterKeepsOrder(list, keep);
      FilterMembers(list, keep);
      Filter(list, keep)
  }

  /** Search keeps every matching record as many times as it occurs, duplicates included. */
  lemma SearchKeepsCount(list: seq<Member>, query: string, m: Member)
    requires !AllSpace(query)
    ensures multiset(Search(list, query))[m] == if Matches(m, Lower(Trim(query))) then multiset(list)[m] else 0
  {
    FilterKeepsCount(list, (m: Member) => Matches(m, Lower(Trim(query))), m);
  }

  /** The fields of a record that the form edits. */
  function ProfileOf(m: Member): Profile {
    Profile(m.name, m.major, m.year, TagsOf(m))
  }

  /**
   * The record `{ ...editing, ...person }`: it keeps the edited record's id,
   * and its editable fields are exactly the form's, tags included.
   */
  function Merge(editing: Member, person: Profile): (r: Member)
    ensures r.id == editing.id && r.tags.Some?
    ensures ProfileOf(r) == person
  {
    Member(editing.id, person.name, person.major, person.year, Some(person.tags))
  }

  /**
   * `onSave`'s list update. While editing, every record with the edited id
   * is replaced by the merged record and every other record stays in
   * place; otherwise one new record with `newId` goes in front.
   */
  function Save(list: seq<Member>, editing: Option<Member>, person: Profile, newId: string): (r: seq<Member>)
    ensures editing.Some? ==> |r| == |list|
    ensures editing.Some? ==> forall i :: 0 <= i < |list| ==> r[i].id == list[i].id
    ensures editing.Some? ==> forall i :: 0 <= i < |list| && list[i].id == editing.value.id ==>
      r[i] == Merge(editing.value, person)
    ensures editing.Some? ==> forall i :: 0 <= i < |list| && list[i].id != editing.value.id ==> r[i] == list[i]
    ensures editing.None? ==> |r| == |list| + 1 && r[1..] == list
    ensures editing.None? ==> r[0] == Member(newId, person.name, person.major, person.year, Some(person.tags))
  {
    match editing
    case Some(e) =>
      seq(|list|, i requires 0 <= i < |list| => if list[i].id == e.id then Merge(e, person) else list[i])
    case None =>
      [Member(newId, person.name, person.major, person.year, Some(person.tags))] + list
  }

  /**
   * `onDelete`'s list update: no record with `id` is left, and every other
   * record stays, as often as before and in its original order.
   */
  function Delete(list: seq<Member>, id: string): (r: seq<Member>)
    ensures forall m :: m in r ==> m.id != id
    ensures forall m :: m in list && m.id != id ==> m in r
    ensures IsSubsequence(r, list)
    ensures forall m: Member :: m.id != id ==> multiset(r)[m] == multiset(list)[m]
  {
    var keep := (m: Member) => m.id != id;
    FilterKeepsOrder(list, keep);
    FilterMembers(list, keep);
    assert forall m: Member :: m.id != id ==> multiset(Filter(list, keep))[m] == multiset(list)[m] by {
      forall m: Member | m.id != id {
        FilterKeepsCount(list, keep, m);
      }
    }
    Filter(list, keep)
  }

  /** Deleting the same id twice is deleting it once. */
  lemma DeleteTwice(list: seq<Member>, id: string)
    ensures Delete(Delete(list, id), id) == Delete(list, id)
  {
    FilterTwice(list, (m: Member) => m.id != id);
  }

  /** A tag the form can produce: non-empty, trimmed, free of commas. */
  predicate WellFormedTag(t: string) {
    t != "" && IsTrimmed(t) && ',' !in t
  }

  predicate IsTag(t: string) {
    t != ""
  }

  /** `map(t => t.trim())`: one trimmed piece for each piece, in order. */
  function TrimAll(parts: seq<string>): (r: seq<string>)
    ensures |r| == |parts| && forall i :: 0 <= i < |parts| ==> r[i] == Trim(parts[i])
    ensures forall t :: t in r ==> IsTrimmed(t)
  {
    seq(|parts|, i requires 0 <= i < |parts| => Trim(parts[i]))
  }

  /** Trimming a list that starts with `x`. */
  lemma TrimAllCons(x: string, xs: seq<string>)
    ensures TrimAll([x] + xs) == [Trim(x)] + TrimAll(xs)
  {
    var l, r := TrimAll([x] + xs), [Trim(x)] + TrimAll(xs);
    assert |l| == |r|;
    forall i | 0 <= i < |l| ensures l[i] == r[i] {
      if i > 0 {
        assert ([x] + xs)[i] == xs[i - 1];
      }
    }
  }

  /** Filtering a list that starts with a survivor. */
  lemma FilterCons<T>(x: T, xs: seq<T>, keep: T -> bool)
    requires keep(x)
    ensures Filter([x] + xs, keep) == [x] + Filter(xs, keep)
  {
    assert ([x] + xs)[1..] == xs;
  }

  /**
   * `tags.split(',').map(t => t.trim()).filter(Boolean)`: every resulting
   * tag is non-empty and has no whitespace at either end.
   */
  function ParseTags(s: string): (r: seq<string>)
    ensures forall k :: 0 <= k < |r| ==> r[k] != "" && IsTrimmed(r[k])
  {
    var trimmed := TrimAll(Split(s, ','));
    var r := Filter(trimmed, IsTag);
    assert forall k :: 0 <= k < |r| ==> r[k] != "" && IsTrimmed(r[k]) by {
      forall k | 0 <= k < |r| ensures r[k] != "" && IsTrimmed(r[k]) {
        assert r[k] in r;
        FilterMembers(trimmed, IsTag);
        assert r[k] in trimmed && IsTag(r[k]);
      }
    }
    r
  }

  /**
   * `confirm`: nothing is saved when the name trims to nothing; otherwise
   * the profile holds the trimmed name and major, the year as selected and
   * the parsed tags.
   */
  function ParseForm(form: Form): (r: Option<Profile>)
    ensures r.None? <==> AllSpace(form.name)
    ensures r.Some? ==> r.value.name == Trim(form.name) && r.value.name != "" && IsTrimmed(r.value.name)
    ensures r.Some? ==> r.value.major == Trim(form.major) && IsTrimmed(r.value.major)
    ensures r.Some? ==> r.value.year == form.year && r.value.tags == ParseTags(form.tags)
  {
    if Trim(form.name) == [] then None
    else Some(Profile(Trim(form.name), Trim(form.major), form.year, ParseTags(form.tags)))
  }

  /**
   * The form's starting values: empty name and major, `Freshman` and no
   * tags without a record; a record's fields, with tags joined by `", "`
   * and an empty year shown as `Freshman`, otherwise.
   */
  function FormFor(initial: Option<Member>): (f: Form)
    ensures initial.None? ==> f == Form("", "", "Freshman", "")
    ensures initial.Some? ==> f.name == initial.value.name && f.major == initial.value.major
    ensures initial.Some? ==> f.year == if initial.value.year == "" then "Freshman" else initial.value.year
    ensures initial.Some? ==> f.tags == Join(TagsOf(initial.value), ", ")
  {
    match initial
    case None => Form("", "", "Freshman", "")
    case Some(m) => Form(m.name, m.major, if m.year == "" then "Freshman" else m.year, Join(TagsOf(m), ", "))
  }

  /** Nothing but whitespace parses to no tags. */
  lemma ParseBlank(w: string)
    requires AllSpace(w) && ',' !in w
    ensures Filter(TrimAll(Split(w, ',')), IsTag) == []
  {
    assert Split(w, ',') == [w] by {
      SplitNoSeparator(w, ',');
    }
    assert TrimAll([w]) == [""] by {
      TrimAllCons(w, []);
      assert [w] + [] == [w];
    }
    assert Filter([""], IsTag) == [] by {
      assert [""][1..] == [];
    }
  }

  /** Whitespace and one tag parse to that tag. */
  lemma ParseSingle(w: string, t: string)
    requires AllSpace(w) && ',' !in w && WellFormedTag(t)
    ensures Filter(TrimAll(Split(w + t, ',')), IsTag) == [t]
  {
    var x := w + t;
    assert Split(x, ',') == [x] by {
      assert ',' !in x;
      SplitNoSeparator(x, ',');
    }
    assert TrimAll([x]) == [t] by {
      TrimAfterSpace(w, t);
      TrimAllCons(x, []);
      assert [x] + [] == [x];
    }
    assert Filter([t], IsTag) == [t] by {
      FilterCons(t, [], IsTag);
      assert [t] + [] == [t];
    }
  }

  /** Whitespace, a tag and a comma: the tag is the first parsed, and parsing goes on after the comma. */
  lemma ParseFirst(w: string, t: string, tail: string)
    requires AllSpace(w) && ',' !in w && WellFormedTag(t)
    ensures Filter(TrimAll(Split(w + t + [','] + tail, ',')), IsTag)
         == [t] + Filter(TrimAll(Split(tail, ',')), IsTag)
  {
    var x := w + t;
    var pieces := Split(tail, ',');
    assert Split(x + [','] + tail, ',') == [x] + pieces by {
      assert ',' !in x;
      SplitAfterPiece(x, tail, ',');
    }
    var trimmed := TrimAll(pieces);
    assert TrimAll([x] + pieces) == [t] + trimmed by {
      TrimAfterSpace(w, t);
      TrimAllCons(x, pieces);
    }
    FilterCons(t, trimmed, IsTag);
  }

  /** Regrouping a comma and a space between two texts. */
  lemma Regroup(w: string, t: string, j: string)
    ensures w + (t + ", " + j) == w + t + [','] + (" " + j)
  {
    assert ", " + j == [','] + (" " + j);
  }

  /** The text of two or more joined tags: the first tag, a comma, then a space and the rest. */
  lemma JoinFirst(w: string, tags: seq<string>)
    requires |tags| >= 2
    ensures w + Join(tags, ", ") == w + tags[0] + [','] + (" " + Join(tags[1..], ", "))
  {
    var j := Join(tags[1..], ", ");
    assert Join(tags, ", ") == tags[0] + ", " + j;
    Regroup(w, tags[0], j);
  }

  /** A non-empty sequence is its head followed by its tail. */
  lemma HeadTail<T>(s: seq<T>)
    requires s != []
    ensures [s[0]] + s[1..] == s
  {
  }

  /** One step of `ParseJoinedTags`: the first tag, then whatever the rest parses to. */
  lemma ParseJoinedStep(w: string, tags: seq<string>)
    requires AllSpace(w) && ',' !in w && |tags| >= 2 && WellFormedTag(tags[0])
    requires Filter(TrimAll(Split(" " + Join(tags[1..], ", "), ',')), IsTag) == tags[1..]
    ensures Filter(TrimAll(Split(w + Join(tags, ", "), ',')), IsTag) == tags
  {
    var t, rest := tags[0], tags[1..];
    var tail := " " + Join(rest, ", ");
    var whole := w + Join(tags, ", ");
    assert whole == w + t + [','] + tail by {
      JoinFirst(w, tags);
    }
    var parsedTail := Filter(TrimAll(Split(tail, ',')), IsTag);
    assert Filter(TrimAll(Split(whole, ',')), IsTag) == [t] + parsedTail by {
      ParseFirst(w, t, tail);
    }
    HeadTail(tags);
  }

  /** The core of `TagsRoundTrip`, after a separator-free run of whitespace `w`. */
  lemma {:induction false} ParseJoinedTags(w: string, tags: seq<string>)
    decreases tags
    requires AllSpace(w) && ',' !in w
    requires forall k :: 0 <= k < |tags| ==> WellFormedTag(tags[k])
    ensures Filter(TrimAll(Split(w + Join(tags, ", "), ',')), IsTag) == tags
  {
    if tags == [] {
      assert w + Join(tags, ", ") == w;
      ParseBlank(w);
    } else if |tags| == 1 {
      assert w + Join(tags, ", ") == w + tags[0];
      ParseSingle(w, tags[0]);
    } else {
      var rest := tags[1..];
      assert forall k :: 0 <= k < |rest| ==> WellFormedTag(rest[k]) by {
        forall k | 0 <= k < |rest| ensures WellFormedTag(rest[k]) {
          assert rest[k] == tags[k + 1];
        }
      }
      ParseJoinedTags(" ", rest);
      ParseJoinedStep(w, tags);
    }
  }

  /**
   * Tags the form can produce survive a trip through the form: joining
   * them with `", "` and parsing with `confirm`'s rule gives them back.
   */
  lemma TagsRoundTrip(tags: seq<string>)
    requires forall k :: 0 <= k < |tags| ==> WellFormedTag(tags[k])
    ensures ParseTags(Join(tags, ", ")) == tags
  {
    assert "" + Join(tags, ", ") == Join(tags, ", ");
    ParseJoinedTags("", tags);
  }

  /** A record exactly as the form would have saved it. */
  predicate WellFormedMember(m: Member) {
    && m.name != "" && IsTrimmed(m.name) && IsTrimmed(m.major) && m.year != ""
    && m.tags.Some? && forall k :: 0 <= k < |TagsOf(m)| ==> WellFormedTag(TagsOf(m)[k])
  }

  /**
   * A record the form could have saved comes back unchanged from a form
   * initialised with it: same name, major, year and tags.
   */
  lemma FormRoundTrip(m: Member)
    requires WellFormedMember(m)
    ensures ParseForm(FormFor(Some(m))) == Some(Profile(m.name, m.major, m.year, TagsOf(m)))
  {
    var f := FormFor(Some(m));
    assert f == Form(m.name, m.major, m.year, Join(TagsOf(m), ", "));
    assert Trim(f.name) == m.name by {
      TrimTrimmed(m.name);
    }
    assert Trim(f.major) == m.major by {
      TrimTrimmed(m.major);
    }
    assert ParseTags(f.tags) == TagsOf(m) by {
      TagsRoundTrip(TagsOf(m));
    }
  }

  /** Saving over records that the merge would reproduce changes nothing. */
  lemma SaveReproducing(list: seq<Member>, e: Member, person: Profile, newId: string)
    requires forall i :: 0 <= i < |list| && list[i].id == e.id ==> list[i] == Merge(e, person)
    ensures Save(list, Some(e), person, newId) == list
  {
    var r := Save(list, Some(e), person, newId);
    assert |r| == |list|;
    assert forall i :: 0 <= i < |list| ==> r[i] == list[i];
  }

  /** Saving a record's own fields while editing it leaves a roster with unique ids as it was. */
  lemma SaveOwnFieldsKeepsRoster(list: seq<Member>, m: Member, newId: string)
    requires m in list && UniqueIds(list) && m.tags.Some?
    ensures Save(list, Some(m), Profile(m.name, m.major, m.year, TagsOf(m)), newId) == list
  {
    var person := Profile(m.name, m.major, m.year, TagsOf(m));
    assert forall i :: 0 <= i < |list| && list[i].id == m.id ==> list[i] == Merge(m, person) by {
      var j :| 0 <= j < |list| && list[j] == m;
      assert Merge(m, person) == m;
    }
    SaveReproducing(list, m, person, newId);
  }

  /**
   * Opening a record for editing and saving the form untouched leaves the
   * roster as it was.
   */
  lemma EditUnchangedKeepsRoster(list: seq<Member>, m: Member, newId: string)
    requires m in list && UniqueIds(list) && WellFormedMember(m)
    ensures ParseForm(FormFor(Some(m))).Some?
    ensures Save(list, Some(m), ParseForm(FormFor(Some(m))).value, newId) == list
  {
    FormRoundTrip(m);
    SaveOwnFieldsKeepsRoster(list, m, newId);
  }

  /** The roster shown when storage holds none. */
  function SeedRoster(): (r: seq<Member>)
    ensures |r| == 8 && UniqueIds(r)
  {
    [ Member("1", "Avery Quinn", "Computer Science", "Senior", Some(["RA", "Night Owl"])),
      Member("2", "Blake Rivera", "Biology", "Junior", Some(["Lab", "Track"])),
      Member("3", "Casey Lin", "Economics", "Sophomore", Some(["Debate", "Finance"])),
      Member("4", "Devon Park", "Psychology", "Senior", Some(["Peer Mentor"])),
      Member("5", "Emery Shah", "History", "Freshman", Some(["Archives"])),
      Member("6", "Jordan West", "Mathematics", "Junior", Some(["TA", "Chess"])),
      Member("7", "Kai Morgan", "Music", "Sophomore", Some(["Choir", "Piano"])),
      Member("8", "Rowan Ellis", "Art & Design", "Senior", Some(["Studio", "Gallery"])) ]
  }

  /** The pitch of the neutral tone played when a form field loses focus. */
  function BlurFreq(field: FormField): (r: real)
    ensures field == NameField <==> r == 880.0
    ensures field == MajorField <==> r == 784.0
    ensures field == YearField <==> r == 698.0
    ensures field == TagsField <==> r == 988.0
  {
    match field
    case NameField => 880.0
    case MajorField => 784.0
    case YearField => 698.0
    case TagsField => 988.0
  }

  /**
   * The screen's React state: the roster, the search text, whether the
   * modal is open, the record being edited and the modal's form fields,
   * with the sound engine it plays through.
   */
  class RosterApp {
    var list: seq<Member>
    var query: string
    var open: bool
    var editing: Option<Member>
    var form: Form
    const audio: Audio.AudioEngine

    ghost predicate Valid()
      reads this, audio
    {
      audio.Valid()
    }

    /** The cards on screen. */
    function Visible(): seq<Member>
      reads this
    {
      Search(list, query)
    }

    /** Mounting: a roster that is missing or does not parse falls back to the seed. */
    constructor (stored: StoredRoster, audio: Audio.AudioEngine)
      requires audio.Valid()
      ensures Valid() && this.audio == audio
      ensures list == if stored.Parsed? then stored.members else SeedRoster()
      ensures query == "" && !open && editing == None && form == FormFor(None)
    {
      list := if stored.Parsed? then stored.members else SeedRoster();
      query := "";
      open := false;
      editing := None;
      form := FormFor(None);
      this.audio := audio;
    }

    /** `setEditing`; the modal re-initialises its form only when the record changes. */
    method SetEditing(e: Option<Member>)
      modifies this`editing, this`form
      ensures editing == e
      ensures form == if e != old(editing) then FormFor(e) else old(form)
    {
      if e != editing {
        form := FormFor(e);
      }
      editing := e;
    }

    /**
     * Typing in the search box: the query changes, so `Visible()` becomes
     * the search of the roster for it, and a shimmer is requested.
     */
    method TypeQuery(q: string)
      requires Valid()
      modifies this`query, audio`log, audio`shimmerTimer
      ensures Valid() && query == q
      ensures old(audio.ShimmerReady()) ==>
        && audio.log == old(audio.log) + [Audio.ShimmerTone(audio.volume, audio.now)]
        && audio.shimmerTimer == Some(audio.now + Audio.ShimmerCooldown)
      ensures !old(audio.ShimmerReady()) ==> audio.log == old(audio.log) && audio.shimmerTimer == old(audio.shimmerTimer)
    {
      query := q;
      assert audio.ShimmerReady() == old(audio.ShimmerReady()) && audio.shimmerTimer == old(audio.shimmerTimer);
      audio.PlayShimmer();
    }

    /** The search box loses focus: a neutral 880 Hz tone. */
    method BlurQuery()
      requires Valid()
      modifies audio`log
      ensures Valid()
      ensures audio.log == old(audio.log) + if audio.CanPlay() then [Audio.Tone(880.0, 0.22, audio.volume * 0.9, audio.now)] else []
    {
      audio.PlayTinn(Audio.ToneOpts(Some(880.0), None, None));
    }

    /** The Add button. */
    method StartAdd()
      modifies this`editing, this`form, this`open
      ensures open && editing == None
      ensures form == if old(editing).Some? then FormFor(None) else old(form)
    {
      SetEditing(None);
      open := true;
    }

    /** A card's Edit button. */
    method StartEdit(p: Member)
      modifies this`editing, this`form, this`open
      ensures open && editing == Some(p)
      ensures form == if old(editing) != Some(p) then FormFor(Some(p)) else old(form)
    {
      SetEditing(Some(p));
      open := true;
    }

    /** Closing the modal without saving. */
    method Close()
      modifies this`editing, this`form, this`open
      ensures !open && editing == None
      ensures form == if old(editing).Some? then FormFor(None) else old(form)
    {
      open := false;
      SetEditing(None);
    }

    /** Typing into a form field; the year selector does not shimmer. */
    method EditField(field: FormField, value: string)
      requires Valid()
      modifies this`form, audio`log, audio`shimmerTimer
      ensures Valid()
      ensures form == match field
        case NameField => old(form).(name := value)
        case MajorField => old(form).(major := value)
        case YearField => old(form).(year := value)
        case TagsField => old(form).(tags := value)
      ensures field == YearField ==> audio.log == old(audio.log) && audio.shimmerTimer == old(audio.shimmerTimer)
      ensures field != YearField && old(audio.ShimmerReady()) ==>
        && audio.log == old(audio.log) + [Audio.ShimmerTone(audio.volume, audio.now)]
        && audio.shimmerTimer == Some(audio.now + Audio.ShimmerCooldown)
      ensures !old(audio.ShimmerReady()) ==> audio.log == old(audio.log) && audio.shimmerTimer == old(audio.shimmerTimer)
    {
      match field
      case NameField => form := form.(name := value); audio.PlayShimmer();
      case MajorField => form := form.(major := value); audio.PlayShimmer();
      case YearField => form := form.(year := value);
      case TagsField => form := form.(tags := value); audio.PlayShimmer();
    }

    /** A form field loses focus: a neutral tone at that field's pitch. */
    method BlurField(field: FormField)
      requires Valid()
      modifies audio`log
      ensures Valid()
      ensures audio.log == old(audio.log) + if audio.CanPlay() then [Audio.Tone(BlurFreq(field), 0.22, audio.volume * 0.9, audio.now)] else []
    {
      audio.PlayTinn(Audio.ToneOpts(Some(BlurFreq(field)), None, None));
    }

    /**
     * `onSave`: the list is updated, the success chime is requested, the
     * modal closes and editing ends.
     */
    method OnSave(person: Profile, newId: string)
      requires Valid()
      modifies this`list, this`open, this`editing, this`form, audio`log
      ensures Valid()
      ensures list == Save(old(list), old(editing), person, newId)
      ensures audio.log == old(audio.log) + if audio.CanPlay() then Audio.SuccessTones(audio.volume, audio.now) else []
      ensures !open && editing == None
      ensures form == if old(editing).Some? then FormFor(None) else old(form)
    {
      list := Save(list, editing, person, newId);
      audio.PlaySuccess();
      open := false;
      SetEditing(None);
    }

    /** The modal's Save button: a blank name saves nothing and changes nothing. */
    method Confirm(newId: string)
      requires Valid()
      modifies this`list, this`open, this`editing, this`form, audio`log
      ensures Valid()
      ensures AllSpace(old(form).name) ==>
        list == old(list) && open == old(open) && editing == old(editing) && form == old(form) && audio.log == old(audio.log)
      ensures !AllSpace(old(form).name) ==>
        && list == Save(old(list), old(editing), ParseForm(old(form)).value, newId)
        && audio.log == old(audio.log) + (if audio.CanPlay() then Audio.SuccessTones(audio.volume, audio.now) else [])
        && !open && editing == None
        && form == if old(editing).Some? then FormFor(None) else old(form)
    {
      var person := ParseForm(form);
      if person.Some? {
        OnSave(person.value, newId);
      }
    }

    /** `onDelete`: the record goes and the delete chime is requested. */
    method OnDelete(id: string)
      requires Valid()
      modifies this`list, audio`log
      ensures Valid()
      ensures list == Delete(old(list), id)
      ensures audio.log == old(audio.log) + if audio.CanPlay() then Audio.DeleteTones(audio.volume, audio.now) else []
    {
      list := Delete(list, id);
      audio.PlayDelete();
    }
  }
}
