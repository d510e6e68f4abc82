/** The post composer: the per-platform texts and the shared "Initial content", insertion of
    hashtags and emoji at the cursor, the selected platforms, and the checks and the request of
    a submission. The component's state hooks are the fields of `Composer`; each handler is a
    method that updates them, specified by a function over the state as a value. */
module CreatePost {
  import opened Wrappers
  import opened TextUtil
  import PostService

  /** The four keys the composer keeps a text for. */
  const PlatformKeys: set<string> :=
    {PostService.FacebookKey, PostService.TwitterKey, PostService.LinkedInKey, PostService.InstagramKey}

  /** The toggle: the shared initial content, or one platform's own text. */
  datatype Tab = InitialContent | PlatformTab(provider: string)

  /** The editing part of the state: the toggle, the per-platform texts, the shared text and the
      cursor. */
  datatype Editor = Editor(toggle: Tab, text: map<string, string>, initialContent: string, cursor: nat)

  /** Every platform key mapped to the same text. */
  function Broadcast(t: string): (m: map<string, string>)
    ensures m.Keys == PlatformKeys
    ensures forall k <- m.Keys :: m[k] == t
  {
    map k | k in PlatformKeys :: t
  }

  /** The text the editor shows: the shared text, or the selected platform's text, `''` when it
      has none. */
  function CurrentText(e: Editor): string {
    match e.toggle
    case InitialContent => e.initialContent
    case PlatformTab(p) => if p in e.text then e.text[p] else ""
  }

  /** On a platform tab, `r` keeps the shared text and every other platform's text of `e`. */
  predicate KeepsOtherTexts(e: Editor, r: Editor)
    requires e.toggle.PlatformTab?
  {
    && r.initialContent == e.initialContent
    && r.text.Keys == e.text.Keys + {e.toggle.provider}
    && forall k <- e.text.Keys :: k != e.toggle.provider ==> r.text[k] == e.text[k]
  }

  /** Writes `updated` as the edited text. In "Initial content" mode it becomes the shared text
      and the text map is replaced by the four platform keys, all holding it; in platform mode
      only the selected platform's entry changes. */
  function Written(e: Editor, updated: string): (r: Editor)
    ensures r.toggle == e.toggle && r.cursor == e.cursor
    ensures CurrentText(r) == updated
    ensures e.toggle.InitialContent? ==> r.initialContent == updated && r.text == Broadcast(updated)
    ensures e.toggle.PlatformTab? ==> KeepsOtherTexts(e, r)
  {
    match e.toggle
    case InitialContent => e.(initialContent := updated, text := Broadcast(updated))
    case PlatformTab(p) => e.(text := e.text[p := updated])
  }

  /** A keystroke: the field's new value becomes the edited text and the cursor moves to the
      selection start the field reports. */
  function TextChanged(e: Editor, newText: string, selectionStart: nat): (r: Editor)
    ensures r.toggle == e.toggle && CurrentText(r) == newText && r.cursor == selectionStart
    ensures e.toggle.InitialContent? ==> r.text == Broadcast(newText)
    ensures e.toggle.PlatformTab? ==> KeepsOtherTexts(e, r)
  {
    Written(e, newText).(cursor := selectionStart)
  }

  const HashSign := "#"
  const Space := " "

  /** A chosen hashtag: `#tag ` goes in at the cursor (clamped to the text, as `slice` does) and
      the cursor advances by its length. */
  function HashtagSelected(e: Editor, hashtag: string): (r: Editor)
    ensures r.toggle == e.toggle
    ensures var k := Clamp(e.cursor, CurrentText(e));
      CurrentText(r) == CurrentText(e)[..k] + HashSign + hashtag + Space + CurrentText(e)[k..]
    ensures r.cursor == e.cursor + |hashtag| + 2
    ensures e.toggle.InitialContent? ==> r.text == Broadcast(r.initialContent)
    ensures e.toggle.PlatformTab? ==> KeepsOtherTexts(e, r)
  {
    var inserted := HashSign + hashtag + Space;
    var text := CurrentText(e);
    var k := Clamp(e.cursor, text);
    var updated := InsertAt(text, e.cursor, inserted);
    assert updated == text[..k] + HashSign + hashtag + Space + text[k..] by {
      assert updated == text[..k] + inserted + text[k..];
    }
    TextChanged(e, updated, e.cursor + |inserted|)
  }

  /** The text map with the four platform keys set to `t` and every other key kept. */
  function Overwritten(text: map<string, string>, t: string): (m: map<string, string>)
    ensures m.Keys == text.Keys + PlatformKeys
    ensures forall k <- PlatformKeys :: m[k] == t
    ensures forall k <- text.Keys :: k !in PlatformKeys ==> m[k] == text[k]
  {
    map k | k in text.Keys + PlatformKeys :: if k in PlatformKeys then t else text[k]
  }

  /** A picked emoji; `None` stands for a missing, empty or non-string `emoji`, which leaves the
      editor as it was. Otherwise the emoji goes in at the cursor and the cursor advances by its
      length; in "Initial content" mode the four platform texts take the new shared text while
      other keys of the text map stay. */
  function EmojiClicked(e: Editor, emoji: Option<string>): (r: Editor)
    ensures emoji.None? || emoji.value == "" ==> r == e
    ensures emoji.Some? && emoji.value != "" ==>
      && r.toggle == e.toggle
      && r.cursor == e.cursor + |emoji.value|
      && var k := Clamp(e.cursor, CurrentText(e));
         CurrentText(r) == CurrentText(e)[..k] + emoji.value + CurrentText(e)[k..]
    ensures emoji.Some? && emoji.value != "" && e.toggle.InitialContent? ==>
      r.text == Overwritten(e.text, r.initialContent)
    ensures emoji.Some? && emoji.value != "" && e.toggle.PlatformTab? ==> KeepsOtherTexts(e, r)
  {
    if emoji.None? || emoji.value == "" then e
    else
      var updated := InsertAt(CurrentText(e), e.cursor, emoji.value);
      match e.toggle
      case InitialContent =>
        Editor(e.toggle, Overwritten(e.text, updated), updated, e.cursor + |emoji.value|)
      case PlatformTab(_) => Written(e, updated).(cursor := e.cursor + |emoji.value|)
  }

  /** Within the text, the cursor ends right after the inserted hashtag, and what precedes the
      insertion point is kept; past the end of the text the cursor overshoots, as `slice`
      clamps only the text. */
  lemma HashtagCursor(e: Editor, hashtag: string)
    ensures var r := HashtagSelected(e, hashtag);
      && (e.cursor <= |CurrentText(e)| ==>
            CurrentText(r)[..r.cursor] == CurrentText(e)[..e.cursor] + HashSign + hashtag + Space)
      && (e.cursor > |CurrentText(e)| ==> r.cursor > |CurrentText(r)|)
  {
    var r := HashtagSelected(e, hashtag);
    var inserted := HashSign + hashtag + Space;
    if e.cursor <= |CurrentText(e)| {
      assert CurrentText(r) == CurrentText(e)[..e.cursor] + inserted + CurrentText(e)[e.cursor..];
      assert CurrentText(r)[..r.cursor] == CurrentText(e)[..e.cursor] + inserted;
    }
  }

  /** Two emoji picked one after the other at a cursor within the text land side by side, as if
      both were inserted at once. */
  lemma {:induction false} EmojiTwice(e: Editor, a: string, b: string)
    requires a != "" && b != "" && e.cursor <= |CurrentText(e)|
    ensures var r := EmojiClicked(EmojiClicked(e, Some(a)), Some(b));
      CurrentText(r) == CurrentText(e)[..e.cursor] + a + b + CurrentText(e)[e.cursor..]
      && r.cursor == e.cursor + |a| + |b|
  {
    var s := CurrentText(e);
    var m := EmojiClicked(e, Some(a));
    assert Clamp(e.cursor, s) == e.cursor;
    assert CurrentText(m) == s[..e.cursor] + a + s[e.cursor..];
    var t := CurrentText(m);
    assert m.cursor == e.cursor + |a| <= |t|;
    assert Clamp(m.cursor, t) == m.cursor;
    assert t[..m.cursor] == s[..e.cursor] + a;
    assert t[m.cursor..] == s[e.cursor..];
    assert CurrentText(EmojiClicked(m, Some(b))) == t[..m.cursor] + b + t[m.cursor..];
  }

  /** In "Initial content" mode every edit leaves the four platform texts equal to the shared
      text. */
  lemma InitialEditsBroadcast(e: Editor, newText: string, selectionStart: nat, hashtag: string, emoji: Option<string>)
    requires e.toggle.InitialContent?
    ensures var r := TextChanged(e, newText, selectionStart);
      forall k <- PlatformKeys :: k in r.text && r.text[k] == r.initialContent
    ensures var r := HashtagSelected(e, hashtag);
      forall k <- PlatformKeys :: k in r.text && r.text[k] == r.initialContent
    ensures emoji.Some? && emoji.value != "" ==> var r := EmojiClicked(e, emoji);
      forall k <- PlatformKeys :: k in r.text && r.text[k] == r.initialContent
  {
  }

  // ---- selected platforms ----

  /** The list without any occurrence of `v`, the others kept in order. */
  function RemoveAll(s: seq<string>, v: string): (r: seq<string>)
    ensures v !in r
    ensures forall x :: x != v ==> multiset(r)[x] == multiset(s)[x]
  {
    if s == [] then []
    else
      assert s == [s[0]] + s[1..];
      if s[0] == v then RemoveAll(s[1..], v) else [s[0]] + RemoveAll(s[1..], v)
  }

  /** Removing from a concatenation removes from each part, so the order is kept. */
  lemma {:induction false} RemoveAllAppend(a: seq<string>, b: seq<string>, v: string)
    ensures RemoveAll(a + b, v) == RemoveAll(a, v) + RemoveAll(b, v)
  {
    if a != [] {
      assert (a + b)[0] == a[0] && (a + b)[1..] == a[1..] + b;
      RemoveAllAppend(a[1..], b, v);
      if a[0] != v {
        assert RemoveAll(a + b, v) == [a[0]] + (RemoveAll(a[1..], v) + RemoveAll(b, v));
      }
    } else {
      assert a + b == b;
    }
  }

  /** Removing a value that is not there changes nothing. */
  lemma {:induction false} RemoveAllAbsent(s: seq<string>, v: string)
    requires v !in s
    ensures RemoveAll(s, v) == s
  {
    if s != [] {
      RemoveAllAbsent(s[1..], v);
    }
  }

  /** The checkbox of one account: a selected provider is removed, an unselected one is
      appended. */
  function Toggled(selected: seq<string>, provider: string): (r: seq<string>)
    ensures provider in selected ==>
      provider !in r && forall x :: x != provider ==> multiset(r)[x] == multiset(selected)[x]
    ensures provider !in selected ==> r == selected + [provider]
  {
    if provider in selected then RemoveAll(selected, provider) else selected + [provider]
  }

  /** Ticking an unselected account's checkbox twice gives back the list as it was. */
  lemma ToggleTwice(selected: seq<string>, provider: string)
    requires provider !in selected
    ensures Toggled(Toggled(selected, provider), provider) == selected
  {
    RemoveAllAppend(selected, [provider], provider);
    RemoveAllAbsent(selected, provider);
  }

  // ---- submission ----

  /** A library image: its source URL and its alternative text. */
  datatype LibraryPick = LibraryPick(src: string, alt: string)

  /** What `new Date(scheduledTime)` gives: an instant in milliseconds, or an invalid date. */
  datatype Moment = At(millis: int) | InvalidDate

  datatype Rejection = ContentEmpty | InstagramNeedsImage | ScheduleNotInFuture

  const ContentEmptyMessage := "Content cannot be empty!"
  const InstagramMessage := "Instagram posts require an image!"
  const ScheduleMessage := "Scheduled time must be in the future!"

  function Message(r: Rejection): string {
    match r
    case ContentEmpty => ContentEmptyMessage
    case InstagramNeedsImage => InstagramMessage
    case ScheduleNotInFuture => ScheduleMessage
  }

  /** Every text, of every key and not only of the selected platforms, is blank once trimmed. */
  predicate AllBlank(text: map<string, string>) {
    forall k <- text.Keys :: Trim(text[k]) == ""
  }

  predicate Truthy(s: Option<string>) {
    s.Some? && s.value != ""
  }

  /** The schedule is rejected when it is set and parses to an instant not after `now`; an
      unparsable date compares false and passes. */
  predicate ScheduleInPast(scheduled: Option<string>, now: int, parse: string -> Moment) {
    Truthy(scheduled) && parse(scheduled.value).At? && parse(scheduled.value).millis <= now
  }

  /** The checks of a submission, in order: the first that fails is reported. */
  function Validate(text: map<string, string>, selected: seq<string>, local: Option<string>,
                    library: Option<LibraryPick>, scheduled: Option<string>, now: int,
                    parse: string -> Moment): (r: Option<Rejection>)
    ensures r == Some(ContentEmpty) <==> AllBlank(text)
    ensures r == Some(InstagramNeedsImage) <==>
      !AllBlank(text) && PostService.InstagramKey in selected && local.None? && library.None?
    ensures r == Some(ScheduleNotInFuture) <==>
      && !AllBlank(text)
      && !(PostService.InstagramKey in selected && local.None? && library.None?)
      && ScheduleInPast(scheduled, now, parse)
  {
    if AllBlank(text) then Some(ContentEmpty)
    else if PostService.InstagramKey in selected && local.None? && library.None? then Some(InstagramNeedsImage)
    else if ScheduleInPast(scheduled, now, parse) then Some(ScheduleNotInFuture)
    else None
  }

  /** The text map restricted to the selected keys, values unchanged. */
  function FilterContent(text: map<string, string>, selected: seq<string>): (r: map<string, string>)
    ensures r.Keys == text.Keys * (set k | k in selected)
    ensures forall k <- r.Keys :: r[k] == text[k]
  {
    map k | k in text.Keys && k in selected :: text[k]
  }

  /** The image sent with the post: the local file first, else the library image fetched as a
      file. */
  datatype ImageUpload = LocalFile(file: string) | LibraryFile(src: string) | NoUpload

  /** Where the post goes: the schedule endpoint with the time attached, or the create endpoint. */
  datatype Endpoint = CreateEndpoint | ScheduleEndpoint(scheduledTime: string)

  datatype Submission = Submission(content: map<string, string>, image: ImageUpload, endpoint: Endpoint)

  function ImageFor(local: Option<string>, library: Option<LibraryPick>): (r: ImageUpload)
    ensures local.Some? ==> r == LocalFile(local.value)
    ensures local.None? && library.Some? ==> r == LibraryFile(library.value.src)
    ensures r.NoUpload? <==> local.None? && library.None?
  {
    if local.Some? then LocalFile(local.value)
    else if library.Some? then LibraryFile(library.value.src)
    else NoUpload
  }

  function EndpointFor(scheduled: Option<string>): (r: Endpoint)
    ensures r.ScheduleEndpoint? <==> Truthy(scheduled)
    ensures r.ScheduleEndpoint? ==> r.scheduledTime == scheduled.value
  {
    if Truthy(scheduled) then ScheduleEndpoint(scheduled.value) else CreateEndpoint
  }

  /** A submission that passed the checks carries some non-blank text, an image when Instagram is
      selected, and a schedule only when it is not in the past. */
  lemma AcceptedSubmission(text: map<string, string>, selected: seq<string>, local: Option<string>,
                           library: Option<LibraryPick>, scheduled: Option<string>, now: int,
                           parse: string -> Moment)
    requires Validate(text, selected, local, library, scheduled, now, parse).None?
    ensures exists k <- text.Keys :: !IsBlank(text[k])
    ensures PostService.InstagramKey in selected ==> !ImageFor(local, library).NoUpload?
    ensures EndpointFor(scheduled).ScheduleEndpoint? && parse(scheduled.value).At? ==>
      parse(scheduled.value).millis > now
  {
    var k :| k in text.Keys && Trim(text[k]) != "";
    TrimEmptyIffBlank(text[k]);
  }

  /** The back end publishes to a platform exactly when the platform was selected and its text is
      not empty: filtering decides which `content` entries are truthy there. */
  lemma FilteredDispatch(text: map<string, string>, selected: seq<string>, p: PostService.Platform)
    ensures var content := FilterContent(text, selected);
      var key := PostService.Name(p);
      PostService.Truthy(PostService.Get(content, key)) <==> (key in selected && key in text && text[key] != "")
  {
  }

  /** The whole component state as a value. */
  datatype ComposerState = ComposerState(
    editor: Editor,
    selectedOptions: seq<string>,
    localImage: Option<string>,
    libraryImage: Option<LibraryPick>,
    scheduledTime: Option<string>,
    snackbar: Option<string>,
    uploading: bool,
    successOpen: bool)

  /** The submit handler on the state as a value: a failed check shows its message and nothing
      is sent; otherwise uploading starts, the filtered content, the image and the endpoint are
      sent, and the success dialog opens when the server accepts. */
  function Submitted(s: ComposerState, now: int, parse: string -> Moment, serverAccepts: bool): (r: (ComposerState, Option<Submission>))
    ensures var v := Validate(s.editor.text, s.selectedOptions, s.localImage, s.libraryImage, s.scheduledTime, now, parse);
      && (v.Some? ==> r.1.None? && r.0 == s.(snackbar := Some(Message(v.value))))
      && (v.None? ==>
            && r.1.Some?
            && r.1.value.content.Keys == s.editor.text.Keys * (set k | k in s.selectedOptions)
            && (forall k <- r.1.value.content.Keys :: r.1.value.content[k] == s.editor.text[k])
            && r.1.value.image == ImageFor(s.localImage, s.libraryImage)
            && r.1.value.endpoint == EndpointFor(s.scheduledTime)
            && r.0 == s.(uploading := true, successOpen := s.successOpen || serverAccepts))
  {
    var v := Validate(s.editor.text, s.selectedOptions, s.localImage, s.libraryImage, s.scheduledTime, now, parse);
    if v.Some? then (s.(snackbar := Some(Message(v.value))), None)
    else
      var submission := Submission(FilterContent(s.editor.text, s.selectedOptions),
                                   ImageFor(s.localImage, s.libraryImage), EndpointFor(s.scheduledTime));
      (s.(uploading := true, successOpen := s.successOpen || serverAccepts), Some(submission))
  }

  /** A submission that fails check `v` only shows that check's message. */
  lemma SubmittedRejected(s: ComposerState, now: int, parse: string -> Moment, serverAccepts: bool, v: Rejection)
    requires Validate(s.editor.text, s.selectedOptions, s.localImage, s.libraryImage, s.scheduledTime, now, parse) == Some(v)
    ensures Submitted(s, now, parse, serverAccepts) == (s.(snackbar := Some(Message(v))), None)
  {
  }

  /** A submission that passes the checks is sent as filtered, with its image and endpoint. */
  lemma SubmittedAccepted(s: ComposerState, now: int, parse: string -> Moment, serverAccepts: bool)
    requires !AllBlank(s.editor.text)
    requires !(PostService.InstagramKey in s.selectedOptions && s.localImage.None? && s.libraryImage.None?)
    requires !ScheduleInPast(s.scheduledTime, now, parse)
    ensures Submitted(s, now, parse, serverAccepts)
      == (s.(uploading := true, successOpen := s.successOpen || serverAccepts),
          Some(Submission(FilterContent(s.editor.text, s.selectedOptions), ImageFor(s.localImage, s.libraryImage),
                          EndpointFor(s.scheduledTime))))
  {
  }

  class Composer {
    var selectedOptions: seq<string>
    var selectedToggle: Tab
    var text: map<string, string>
    var initialContent: string
    var cursorPosition: nat
    var selectedLocalImage: Option<string>
    var selectedLibraryImage: Option<LibraryPick>
    var scheduledTime: Option<string>
    var snackbarMessage: Option<string>
    var uploading: bool
    var postSuccessModal: bool

    function Editing(): Editor
      reads this
    {
      Editor(selectedToggle, text, initialContent, cursorPosition)
    }

    function State(): ComposerState
      reads this
    {
      ComposerState(Editing(), selectedOptions, selectedLocalImage, selectedLibraryImage, scheduledTime,
            snackbarMessage, uploading, postSuccessModal)
    }

    /** The initial state: nothing selected, "Initial content" shown, four empty texts. */
    constructor ()
      ensures State() == ComposerState(Editor(InitialContent, Broadcast(""), "", 0), [], None, None, None, None, false, false)
    {
      selectedOptions := [];
      selectedToggle := InitialContent;
      text := Broadcast("");
      initialContent := "";
      cursorPosition := 0;
      selectedLocalImage := None;
      selectedLibraryImage := None;
      scheduledTime := None;
      snackbarMessage := None;
      uploading := false;
      postSuccessModal := false;
    }

    method HandleTextChange(newText: string, selectionStart: nat)
      modifies this
      ensures State() == old(State()).(editor := TextChanged(old(Editing()), newText, selectionStart))
    {
      cursorPosition := selectionStart;
      if selectedToggle.InitialContent? {
        initialContent := newText;
        text := Broadcast(newText);
      } else {
        text := text[selectedToggle.provider := newText];
      }
    }

    method HandleHashtagSelect(hashtag: string)
      modifies this
      ensures State() == old(State()).(editor := HashtagSelected(old(Editing()), hashtag))
    {
      var newText := CurrentText(Editing());
      var hashtagsText := HashSign + hashtag + Space;
      var updatedText := InsertAt(newText, cursorPosition, hashtagsText);
      cursorPosition := cursorPosition + |hashtagsText|;
      if selectedToggle.InitialContent? {
        initialContent := updatedText;
        text := Broadcast(updatedText);
      } else {
        text := text[selectedToggle.provider := updatedText];
      }
    }

    method HandleEmojiClick(emoji: Option<string>)
      modifies this
      ensures State() == old(State()).(editor := EmojiClicked(old(Editing()), emoji))
    {
      if emoji.None? || emoji.value == "" {
        return;
      }
      var updatedText := text;
      if selectedToggle.InitialContent? {
        var initialNewText := InsertAt(initialContent, cursorPosition, emoji.value);
        initialContent := initialNewText;
        updatedText := Overwritten(updatedText, initialNewText);
      } else {
        var selectedText := if selectedToggle.provider in updatedText then updatedText[selectedToggle.provider] else "";
        updatedText := updatedText[selectedToggle.provider := InsertAt(selectedText, cursorPosition, emoji.value)];
      }
      text := updatedText;
      cursorPosition := cursorPosition + |emoji.value|;
    }

    /** The toggle group ignores a click that would deselect every button. */
    method HandleToggleChange(newToggle: Option<Tab>)
      modifies this
      ensures newToggle.None? ==> State() == old(State())
      ensures newToggle.Some? ==> State() == old(State()).(editor := old(Editing()).(toggle := newToggle.value))
    {
      if newToggle.Some? {
        selectedToggle := newToggle.value;
      }
    }

    method HandleCheckbox(provider: string)
      modifies this
      ensures State() == old(State()).(selectedOptions := Toggled(old(selectedOptions), provider))
    {
      if provider in selectedOptions {
        selectedOptions := RemoveAll(selectedOptions, provider);
      } else {
        selectedOptions := selectedOptions + [provider];
      }
    }

    method HandleRemoveOption(valueToRemove: string)
      modifies this
      ensures State() == old(State()).(selectedOptions := RemoveAll(old(selectedOptions), valueToRemove))
    {
      selectedOptions := RemoveAll(selectedOptions, valueToRemove);
    }

    method HandleSchedule(dateTime: string)
      modifies this
      ensures State() == old(State()).(scheduledTime := Some(dateTime))
    {
      scheduledTime := Some(dateTime);
    }

    /** A file chosen or dropped replaces the library image. */
    method HandleFileInputChange(file: Option<string>)
      modifies this
      ensures file.None? ==> State() == old(State())
      ensures file.Some? ==> State() == old(State()).(localImage := file, libraryImage := None)
    {
      if file.Some? {
        selectedLocalImage := file;
        selectedLibraryImage := None;
      }
    }

    /** A library image chosen replaces the local file. */
    method HandleLibraryImageSelect(pick: LibraryPick)
      modifies this
      ensures State() == old(State()).(localImage := None, libraryImage := Some(pick))
    {
      selectedLibraryImage := Some(pick);
      selectedLocalImage := None;
    }

    /** Submits the post at time `now`; `parse` is `new Date(...)` and `serverAccepts` says
        whether the endpoint answered without error. Returns what was sent, if anything. */
    method HandleSubmit(now: int, parse: string -> Moment, serverAccepts: bool) returns (sent: Option<Submission>)
      modifies this
      ensures (State(), sent) == Submitted(old(State()), now, parse, serverAccepts)
    {
      ghost var before := State();
      // The three checks in order; the first that fails is reported and ends the handler.
      var rejection: Option<Rejection> := None;
      if AllBlank(text) {
        rejection := Some(ContentEmpty);
      } else if PostService.InstagramKey in selectedOptions && selectedLocalImage.None? && selectedLibraryImage.None? {
        rejection := Some(InstagramNeedsImage);
      } else if ScheduleInPast(scheduledTime, now, parse) {
        rejection := Some(ScheduleNotInFuture);
      }
      if rejection.Some? {
        SubmittedRejected(before, now, parse, serverAccepts, rejection.value);
        snackbarMessage := Some(Message(rejection.value));
        return None;
      }
      SubmittedAccepted(before, now, parse, serverAccepts);
      uploading := true;
      var filteredContent := FilterContent(text, selectedOptions);
      var image := ImageFor(selectedLocalImage, selectedLibraryImage);
      var endpoint := EndpointFor(scheduledTime);
      sent := Some(Submission(filteredContent, image, endpoint));
      if serverAccepts {
        postSuccessModal := true;
      }
    }
  }
}
