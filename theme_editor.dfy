/** The editing session of the theme page: the state it keeps between
    renders and the actions that change it, with the browser's local
    storage as a map from slot name to what the slot holds. */
module ThemeEditor {
  import opened JsRuntime
  import opened ThemeDraft

  const DraftSlot := "theme_draft"
  const PublishedSlot := "theme_published"

  /** What a storage slot holds: the text `JSON.stringify` wrote, kept as the
      value `JSON.parse` gives back, or text that does not parse (including
      the empty string, which the load step treats as nothing stored). */
  datatype Stored = Serialized(value: Json) | Unparsable

  /** `{ ...tab, [k]: v }` for each field the editor sets. */
  datatype TabEdit =
    | SetCaption(caption: string)
    | SetUrl(url: string)
    | SetKind(kind: IconKind)
    | SetBuiltin(name: string)
    | SetEmoji(emoji: string)
    | SetIconImage(image: string)

  datatype BrandEdit =
    | SetAppName(appName: string)
    | SetPrimary(primary: string)
    | SetSecondary(secondary: string)
    | SetTextColor(textColor: string)
    | SetFont(font: FontFamily)

  datatype HomeEdit =
    | SetBannerImage(bannerImage: string)
    | SetBannerLink(bannerLink: string)
    | SetNoticeText(noticeText: string)

  function ApplyTabEdit(t: Tab, e: TabEdit): Tab
  {
    match e
    case SetCaption(v) => t.(caption := v)
    case SetUrl(v) => t.(url := v)
    case SetKind(v) => t.(iconKind := v)
    case SetBuiltin(v) => t.(builtin := Some(JString(v)))
    case SetEmoji(v) => t.(emoji := Some(v))
    case SetIconImage(v) => t.(iconImage := Some(v))
  }

  /** Which of a tab's fields an edit writes. */
  datatype TabField = CaptionField | UrlField | KindField | BuiltinField | EmojiField | IconImageField

  function FieldOf(e: TabEdit): TabField
  {
    match e
    case SetCaption(_) => CaptionField
    case SetUrl(_) => UrlField
    case SetKind(_) => KindField
    case SetBuiltin(_) => BuiltinField
    case SetEmoji(_) => EmojiField
    case SetIconImage(_) => IconImageField
  }

  /** Two tabs agree on every field except possibly `f`. */
  predicate AgreeExcept(t: Tab, u: Tab, f: TabField)
  {
    (f == CaptionField || t.caption == u.caption)
    && (f == UrlField || t.url == u.url)
    && (f == KindField || t.iconKind == u.iconKind)
    && (f == BuiltinField || t.builtin == u.builtin)
    && (f == EmojiField || t.emoji == u.emoji)
    && (f == IconImageField || t.iconImage == u.iconImage)
  }

  /** An edit changes only the field it names, and that field then holds
      the edit's value. */
  lemma ApplyTabEditOnlyField(t: Tab, e: TabEdit)
    ensures AgreeExcept(t, ApplyTabEdit(t, e), FieldOf(e))
    ensures ApplyTabEdit(ApplyTabEdit(t, e), e) == ApplyTabEdit(t, e)
    ensures match e
      case SetCaption(v) => ApplyTabEdit(t, e).caption == v
      case SetUrl(v) => ApplyTabEdit(t, e).url == v
      case SetKind(v) => ApplyTabEdit(t, e).iconKind == v
      case SetBuiltin(v) => ApplyTabEdit(t, e).builtin == Some(JString(v))
      case SetEmoji(v) => ApplyTabEdit(t, e).emoji == Some(v)
      case SetIconImage(v) => ApplyTabEdit(t, e).iconImage == Some(v)
  {
  }

  function ApplyBrandEdit(b: Brand, e: BrandEdit): Brand
  {
    match e
    case SetAppName(v) => b.(appName := v)
    case SetPrimary(v) => b.(primary := v)
    case SetSecondary(v) => b.(secondary := v)
    case SetTextColor(v) => b.(textColor := v)
    case SetFont(v) => b.(fontFamily := v)
  }

  function ApplyHomeEdit(h: Home, e: HomeEdit): Home
  {
    match e
    case SetBannerImage(v) => h.(bannerImage := v)
    case SetBannerLink(v) => h.(bannerLink := v)
    case SetNoticeText(v) => h.(noticeText := v)
  }

  /** The tab `addTab` appends. */
  function NewTab(): Tab
  {
    Tab(DefaultLabel, DefaultLink, Emoji, None, Some(DefaultEmoji), None)
  }

  /** `s.filter((_, idx) => idx !== i)` */
  function Without<T>(s: seq<T>, i: int): seq<T>
    decreases |s|
  {
    if s == [] then []
    else (if i == 0 then [] else [s[0]]) + Without(s[1..], i - 1)
  }

  /** Removing a valid index drops exactly that element and keeps the others
      in order; any other index removes nothing. */
  lemma {:induction false} WithoutSpec<T>(s: seq<T>, i: int)
    ensures 0 <= i < |s| ==> Without(s, i) == s[..i] + s[i + 1..]
    ensures !(0 <= i < |s|) ==> Without(s, i) == s
    decreases |s|
  {
    if s != [] {
      var tail := s[1..];
      WithoutSpec(tail, i - 1);
      if 0 < i < |s| {
        assert tail[..i - 1] == s[1..i];
        assert tail[i..] == s[i + 1..];
        assert Without(s, i) == [s[0]] + (s[1..i] + s[i + 1..]);
        assert [s[0]] + s[1..i] == s[..i];
      } else if i != 0 {
        assert Without(s, i) == [s[0]] + tail;
      }
    }
  }

  /** The draft a save or publish writes: `{ ...draft, site: { url: webUrl } }`. */
  function Snapshot(d: Draft, webUrl: string): (r: Draft)
    ensures r.site.url == webUrl
    ensures r.brand == d.brand && r.navigation == d.navigation && r.home == d.home
    ensures WellFormed(d) ==> WellFormed(r)
  {
    d.(site := Site(webUrl))
  }

  /** The address shown after loading a draft: its own, or the initial one
      when it has none (`md.site.url || initialDraft.site.url`). */
  function UrlAfterLoad(d: Draft): (u: string)
    ensures u != ""
    ensures d.site.url != "" ==> u == d.site.url
  {
    if d.site.url != "" then d.site.url else InitialDraft().site.url
  }

  class Editor {
    var draft: Draft
    var webUrl: string
    var frameKey: nat
    var frameBlocked: bool
    var storage: map<string, Stored>

    /** The first render: every piece of state at its initial value, over
        whatever the storage already holds. */
    constructor (stored: map<string, Stored>)
      ensures draft == InitialDraft() && webUrl == InitialDraft().site.url
      ensures frameKey == 0 && !frameBlocked && storage == stored
    {
      draft := InitialDraft();
      webUrl := InitialDraft().site.url;
      frameKey := 0;
      frameBlocked := false;
      storage := stored;
    }

    /** The load effect: a stored draft that parses is migrated and becomes
        the draft, and the address becomes its site URL or the initial one;
        a missing or unparsable slot leaves everything as it was. */
    method Load()
      modifies this
      ensures storage == old(storage) && frameKey == old(frameKey) && frameBlocked == old(frameBlocked)
      ensures DraftSlot in storage && storage[DraftSlot].Serialized? ==>
                draft == Migrate(storage[DraftSlot].value) && webUrl == UrlAfterLoad(draft)
                && WellFormed(draft) && webUrl != ""
      ensures !(DraftSlot in storage && storage[DraftSlot].Serialized?) ==>
                draft == old(draft) && webUrl == old(webUrl)
    {
      if DraftSlot in storage {
        match storage[DraftSlot]
        case Serialized(raw) =>
          var md := Migrate(raw);
          draft := md;
          webUrl := UrlAfterLoad(md);
        case Unparsable =>
      }
    }

    method SetWebUrl(u: string)
      modifies this
      ensures webUrl == u
      ensures draft == old(draft) && frameKey == old(frameKey)
      ensures frameBlocked == old(frameBlocked) && storage == old(storage)
    {
      webUrl := u;
    }

    /** `setBrand(k, v)`: one brand field changes, nothing else. */
    method SetBrand(e: BrandEdit)
      modifies this
      ensures draft == old(draft).(brand := ApplyBrandEdit(old(draft).brand, e))
      ensures webUrl == old(webUrl) && frameKey == old(frameKey)
      ensures frameBlocked == old(frameBlocked) && storage == old(storage)
    {
      draft := draft.(brand := ApplyBrandEdit(draft.brand, e));
    }

    /** `setHome(k, v)`: one home field changes, nothing else. */
    method SetHome(e: HomeEdit)
      modifies this
      ensures draft == old(draft).(home := ApplyHomeEdit(old(draft).home, e))
      ensures webUrl == old(webUrl) && frameKey == old(frameKey)
      ensures frameBlocked == old(frameBlocked) && storage == old(storage)
    {
      draft := draft.(home := ApplyHomeEdit(draft.home, e));
    }

    /** `setTab(i, k, v)`: copies the tab list and rewrites field k of tab i. */
    method SetTab(i: nat, e: TabEdit)
      requires i < |draft.navigation.tabs|
      modifies this
      ensures |draft.navigation.tabs| == |old(draft).navigation.tabs|
      ensures draft.navigation.tabs[i] == ApplyTabEdit(old(draft).navigation.tabs[i], e)
      ensures AgreeExcept(old(draft).navigation.tabs[i], draft.navigation.tabs[i], FieldOf(e))
      ensures forall j :: 0 <= j < |draft.navigation.tabs| && j != i ==>
                draft.navigation.tabs[j] == old(draft).navigation.tabs[j]
      ensures draft.brand == old(draft).brand && draft.home == old(draft).home && draft.site == old(draft).site
      ensures webUrl == old(webUrl) && frameKey == old(frameKey)
      ensures frameBlocked == old(frameBlocked) && storage == old(storage)
    {
      var tabs := draft.navigation.tabs;
      ApplyTabEditOnlyField(tabs[i], e);
      tabs := tabs[i := ApplyTabEdit(tabs[i], e)];
      draft := draft.(navigation := Navigation(tabs));
    }

    /** `addTab()`: exactly one new emoji tab at the end. */
    method AddTab()
      modifies this
      ensures draft.navigation.tabs == old(draft).navigation.tabs + [NewTab()]
      ensures draft.brand == old(draft).brand && draft.home == old(draft).home && draft.site == old(draft).site
      ensures webUrl == old(webUrl) && frameKey == old(frameKey)
      ensures frameBlocked == old(frameBlocked) && storage == old(storage)
    {
      draft := draft.(navigation := Navigation(draft.navigation.tabs + [NewTab()]));
    }

    /** `removeTab(i)`: drops index i, keeping the others in order; an index
        that names no tab changes nothing. */
    method RemoveTab(i: int)
      modifies this
      ensures 0 <= i < |old(draft).navigation.tabs| ==>
                draft.navigation.tabs == old(draft).navigation.tabs[..i] + old(draft).navigation.tabs[i + 1..]
      ensures !(0 <= i < |old(draft).navigation.tabs|) ==> draft.navigation.tabs == old(draft).navigation.tabs
      ensures draft.brand == old(draft).brand && draft.home == old(draft).home && draft.site == old(draft).site
      ensures webUrl == old(webUrl) && frameKey == old(frameKey)
      ensures frameBlocked == old(frameBlocked) && storage == old(storage)
    {
      WithoutSpec(draft.navigation.tabs, i);
      draft := draft.(navigation := Navigation(Without(draft.navigation.tabs, i)));
    }

    /** `saveDraft()`: writes the draft, with the current address as its
        site URL, to the draft slot and touches nothing else. */
    method SaveDraft()
      modifies this
      ensures storage == old(storage)[DraftSlot := Serialized(Encode(Snapshot(draft, webUrl)))]
      ensures draft == old(draft) && webUrl == old(webUrl)
      ensures frameKey == old(frameKey) && frameBlocked == old(frameBlocked)
    {
      storage := storage[DraftSlot := Serialized(Encode(Snapshot(draft, webUrl)))];
    }

    /** `publishDraft()`: the same snapshot, to the published slot only. */
    method PublishDraft()
      modifies this
      ensures storage == old(storage)[PublishedSlot := Serialized(Encode(Snapshot(draft, webUrl)))]
      ensures draft == old(draft) && webUrl == old(webUrl)
      ensures frameKey == old(frameKey) && frameBlocked == old(frameBlocked)
    {
      storage := storage[PublishedSlot := Serialized(Encode(Snapshot(draft, webUrl)))];
    }

    /** `resetAll()`: both slots removed, the initial draft and address
        restored, and the preview frame forced to reload. */
    method ResetAll()
      modifies this
      ensures storage == old(storage) - {DraftSlot, PublishedSlot}
      ensures DraftSlot !in storage && PublishedSlot !in storage
      ensures draft == InitialDraft() && webUrl == InitialDraft().site.url
      ensures frameKey == old(frameKey) + 1 && !frameBlocked
    {
      storage := storage - {DraftSlot, PublishedSlot};
      draft := InitialDraft();
      webUrl := InitialDraft().site.url;
      frameKey := frameKey + 1;
      frameBlocked := false;
    }
  }

  /** Saving, then opening the editor again over the same storage, brings
      back the saved draft in normal form, with the saved address; a
      well-formed draft comes back unchanged. */
  method SaveThenReopen(e: Editor) returns (reopened: Editor)
    modifies e
    ensures fresh(reopened)
    ensures reopened.draft == Normalize(Snapshot(old(e.draft), old(e.webUrl)))
    ensures WellFormed(old(e.draft)) ==> reopened.draft == Snapshot(old(e.draft), old(e.webUrl))
    ensures reopened.webUrl == UrlAfterLoad(reopened.draft)
    ensures old(e.webUrl) != "" ==> reopened.webUrl == old(e.webUrl)
  {
    e.SaveDraft();
    reopened := new Editor(e.storage);
    reopened.Load();
    var snap := Snapshot(old(e.draft), old(e.webUrl));
    SaveReload(snap);
    if WellFormed(old(e.draft)) {
      assert WellFormed(snap);
      NormalizeWellFormed(snap);
    }
  }

  /** Reset clears what save and publish wrote: opening the editor again
      afterwards shows the initial draft. */
  method ResetThenReopen(e: Editor) returns (reopened: Editor)
    modifies e
    ensures fresh(reopened)
    ensures reopened.draft == InitialDraft() && reopened.webUrl == InitialDraft().site.url
  {
    e.SaveDraft();
    e.PublishDraft();
    e.ResetAll();
    reopened := new Editor(e.storage);
    reopened.Load();
  }
}
