/** The theme draft of the editor page: its shape, the migration that turns
    any stored value into a valid draft, and the pure helpers the preview
    uses (contrast colour, font stack, webview address). */
module ThemeDraft {
  import opened JsRuntime
  import opened WebUrl

  datatype IconKind = Builtin | Emoji | Image
  datatype FontFamily = System | Inter | Roboto | Poppins

  /** A bottom-navigation tab (`caption` is the stored `label`). `builtin`, `emoji` and `iconImage` are
      optional (absent = None); a migrated `builtin` keeps whatever non-null
      value was stored, as the source never checks it against the icon names. */
  datatype Tab = Tab(caption: string, url: string, iconKind: IconKind,
                     builtin: Option<Json>, emoji: Option<string>, iconImage: Option<string>)

  datatype Brand = Brand(appName: string, primary: string, secondary: string,
                         textColor: string, fontFamily: FontFamily)
  datatype Navigation = Navigation(tabs: seq<Tab>)
  datatype Home = Home(bannerImage: string, bannerLink: string, noticeText: string)
  datatype Site = Site(url: string)
  datatype Draft = Draft(brand: Brand, navigation: Navigation, home: Home, site: Site)

  const FontOptions: seq<string> := ["System", "Inter", "Roboto", "Poppins"]
  const SampleBanner0 := "https://images.unsplash.com/photo-1542831371-29b0f74f9713?q=80&w=1200&auto=format&fit=crop"
  const DefaultLink := "https://ornek.com"
  const DefaultAppName := "Ma\U{011F}azam"
  const DefaultNotice := "Bug\U{00FC}n %15 indirim!"
  const DefaultEmoji := "\U{2728}"
  const DefaultLabel := "Yeni"
  const DefaultPrimary := "#EA580C"
  const DefaultSecondary := "#F59E0B"
  const DefaultTextColor := "#111827"
  const DarkText := "#111827"
  const LightText := "#ffffff"

  function KindName(k: IconKind): string
  {
    match k
    case Builtin => "builtin"
    case Emoji => "emoji"
    case Image => "image"
  }

  function FontName(f: FontFamily): string
  {
    match f
    case System => "System"
    case Inter => "Inter"
    case Roboto => "Roboto"
    case Poppins => "Poppins"
  }

  /* ===== Colours ===== */

  predicate IsHexDigit(c: char)
  {
    '0' <= c <= '9' || 'a' <= c <= 'f' || 'A' <= c <= 'F'
  }

  /** The pattern `^#[\da-fA-F]{6}$`. */
  predicate IsHexColor(t: string)
  {
    |t| == 7 && t[0] == '#' && forall i :: 1 <= i < 7 ==> IsHexDigit(t[i])
  }

  /** A well-formed colour carries no white space, so trimming keeps it. */
  lemma HexColorIsTrimmed(t: string)
    requires IsHexColor(t)
    ensures Trim(t) == t
  {
    assert IsHexDigit(t[6]);
    TrimOfUnpadded(t);
  }

  /** `sanitizeHex(c, fb)`: the trimmed string when it is a well-formed
      colour, the fallback otherwise. */
  function SanitizeHex(c: Option<Json>, fb: string): (r: string)
    ensures r == fb || (AsString(c).Some? && r == Trim(AsString(c).value))
    ensures r != fb ==> IsHexColor(r)
    ensures IsHexColor(fb) ==> IsHexColor(r)
  {
    match AsString(c)
    case Some(s) => if IsHexColor(Trim(s)) then Trim(s) else fb
    case None => fb
  }

  /** Both directions of the rule: the trimmed string comes back exactly when
      the input is a string whose trim is a well-formed colour. */
  lemma SanitizeHexSpec(c: Option<Json>, fb: string)
    ensures AsString(c).Some? && IsHexColor(Trim(AsString(c).value))
            ==> SanitizeHex(c, fb) == Trim(AsString(c).value)
    ensures !(AsString(c).Some? && IsHexColor(Trim(AsString(c).value)))
            ==> SanitizeHex(c, fb) == fb
  {
  }

  /** A sanitised colour passes the sanitiser unchanged. */
  lemma SanitizeHexIdempotent(c: Option<Json>, fb: string)
    requires IsHexColor(fb)
    ensures SanitizeHex(Some(JString(SanitizeHex(c, fb))), fb) == SanitizeHex(c, fb)
  {
    HexColorIsTrimmed(SanitizeHex(c, fb));
  }

  lemma SanitizeHexExamples(fb: string)
    ensures SanitizeHex(Some(JString("#ZZZZZZ")), fb) == fb
    ensures SanitizeHex(Some(JString("#aabbcc")), fb) == "#aabbcc"
    ensures SanitizeHex(Some(JNumber(42)), fb) == fb
  {
    HexColorIsTrimmed("#aabbcc");
    var z := "#ZZZZZZ";
    assert !IsSpace(z[0]) && !IsSpace(z[6]);
    TrimOfUnpadded(z);
    assert !IsHexDigit(z[1]);
  }

  /* ===== Migration ===== */

  /** `isString(v) ? v : dflt` */
  function StringOr(v: Option<Json>, dflt: string): string
  {
    match AsString(v)
    case Some(s) => s
    case None => dflt
  }

  /** The font, accepting only one of the four names given as a string.
      See "Findings" in the README for how the source's `String(...)`
      coercion departs from this. */
  function MigrateFont(candidate: Option<Json>): (f: FontFamily)
    ensures AsString(candidate).Some? && AsString(candidate).value in FontOptions
            ==> FontName(f) == AsString(candidate).value
    ensures !(AsString(candidate).Some? && AsString(candidate).value in FontOptions) ==> f == System
  {
    match AsString(candidate)
    case Some(s) =>
      if s == "Inter" then Inter
      else if s == "Roboto" then Roboto
      else if s == "Poppins" then Poppins
      else System
    case None => System
  }

  /** `iconKind`: one of the three names, any other value becomes builtin. */
  function MigrateIconKind(raw: Option<Json>): (k: IconKind)
    ensures AsString(raw).Some? && AsString(raw).value in ["builtin", "emoji", "image"]
            ==> KindName(k) == AsString(raw).value
    ensures !(AsString(raw).Some? && AsString(raw).value in ["builtin", "emoji", "image"]) ==> k == Builtin
  {
    if raw == Some(JString("image")) then Image
    else if raw == Some(JString("emoji")) then Emoji
    else Builtin
  }

  /** `(tr.builtin as IconName) ?? 'home'`: kept unless null or absent. */
  function MigrateBuiltin(raw: Option<Json>): (r: Json)
    ensures r != JNull
    ensures raw.Some? && !raw.value.JNull? ==> r == raw.value
    ensures raw.None? || raw.value.JNull? ==> r == JString("home")
  {
    if raw.None? || raw.value.JNull? then JString("home") else raw.value
  }

  /** One element of the stored tab list, migrated on its own. */
  function MigrateTab(t: Json): (r: Tab)
    ensures TabWellFormed(r)
    ensures AsString(Prop(Some(t), "label")).None? ==> r.caption == DefaultLabel
    ensures AsString(Prop(Some(t), "label")).Some? ==> r.caption == AsString(Prop(Some(t), "label")).value
    ensures AsString(Prop(Some(t), "url")).None? ==> r.url == DefaultLink
    ensures AsString(Prop(Some(t), "url")).Some? ==> r.url == AsString(Prop(Some(t), "url")).value
    ensures AsString(Prop(Some(t), "emoji")).None? ==> r.emoji == Some(DefaultEmoji)
    ensures AsString(Prop(Some(t), "emoji")).Some? ==> r.emoji == AsString(Prop(Some(t), "emoji"))
    ensures AsString(Prop(Some(t), "iconImage")).None? ==> r.iconImage == Some("")
    ensures AsString(Prop(Some(t), "iconImage")).Some? ==> r.iconImage == AsString(Prop(Some(t), "iconImage"))
    ensures r.iconKind == MigrateIconKind(Prop(Some(t), "iconKind"))
    ensures Prop(Some(t), "builtin") in {None, Some(JNull)} ==> r.builtin == Some(JString("home"))
    ensures Prop(Some(t), "builtin") !in {None, Some(JNull)} ==> r.builtin == Prop(Some(t), "builtin")
  {
    var tr := Some(t);
    Tab(caption := StringOr(Prop(tr, "label"), DefaultLabel),
        url := StringOr(Prop(tr, "url"), DefaultLink),
        iconKind := MigrateIconKind(Prop(tr, "iconKind")),
        builtin := Some(MigrateBuiltin(Prop(tr, "builtin"))),
        emoji := Some(StringOr(Prop(tr, "emoji"), DefaultEmoji)),
        iconImage := Some(StringOr(Prop(tr, "iconImage"), "")))
  }

  /** `Array.isArray(navigation.tabs) ? navigation.tabs.map(...) : []` */
  function MigrateTabs(navigation: Option<Json>): (tabs: seq<Tab>)
    ensures forall i :: 0 <= i < |tabs| ==> TabWellFormed(tabs[i])
  {
    match Prop(navigation, "tabs")
    case Some(JArray(items)) => seq(|items|, i requires 0 <= i < |items| => MigrateTab(items[i]))
    case _ => []
  }

  predicate TabWellFormed(t: Tab)
  {
    t.builtin.Some? && !t.builtin.value.JNull? && t.emoji.Some? && t.iconImage.Some?
  }

  /** What every migrated draft satisfies: colours are well formed and each
      tab has all its icon fields. */
  predicate WellFormed(d: Draft)
  {
    IsHexColor(d.brand.primary) && IsHexColor(d.brand.secondary) && IsHexColor(d.brand.textColor)
    && forall i :: 0 <= i < |d.navigation.tabs| ==> TabWellFormed(d.navigation.tabs[i])
  }

  /** The default colours are well formed. */
  lemma DefaultColoursAreHex()
    ensures IsHexColor(DefaultPrimary) && IsHexColor(DefaultSecondary) && IsHexColor(DefaultTextColor)
  {
  }

  /** The `brand` group of `migrateDraft`. */
  function MigrateBrand(brand: Option<Json>): (b: Brand)
    ensures IsHexColor(b.primary) && IsHexColor(b.secondary) && IsHexColor(b.textColor)
    ensures AsString(Prop(brand, "appName")).Some? ==> b.appName == AsString(Prop(brand, "appName")).value
    ensures AsString(Prop(brand, "appName")).None? ==> b.appName == DefaultAppName
    ensures b.primary == SanitizeHex(Prop(brand, "primary"), DefaultPrimary)
    ensures b.secondary == SanitizeHex(Prop(brand, "secondary"), DefaultSecondary)
    ensures b.textColor == SanitizeHex(Prop(brand, "textColor"), DefaultTextColor)
    ensures b.fontFamily == MigrateFont(Prop(brand, "fontFamily"))
  {
    DefaultColoursAreHex();
    Brand(appName := StringOr(Prop(brand, "appName"), DefaultAppName),
          primary := SanitizeHex(Prop(brand, "primary"), DefaultPrimary),
          secondary := SanitizeHex(Prop(brand, "secondary"), DefaultSecondary),
          textColor := SanitizeHex(Prop(brand, "textColor"), DefaultTextColor),
          fontFamily := MigrateFont(Prop(brand, "fontFamily")))
  }

  /** The `home` group of `migrateDraft`. */
  function MigrateHome(home: Option<Json>): (h: Home)
    ensures AsString(Prop(home, "bannerImage")).Some? ==> h.bannerImage == AsString(Prop(home, "bannerImage")).value
    ensures AsString(Prop(home, "bannerImage")).None? ==> h.bannerImage == SampleBanner0
    ensures AsString(Prop(home, "bannerLink")).Some? ==> h.bannerLink == AsString(Prop(home, "bannerLink")).value
    ensures AsString(Prop(home, "bannerLink")).None? ==> h.bannerLink == DefaultLink
    ensures AsString(Prop(home, "noticeText")).Some? ==> h.noticeText == AsString(Prop(home, "noticeText")).value
    ensures AsString(Prop(home, "noticeText")).None? ==> h.noticeText == DefaultNotice
  {
    Home(bannerImage := StringOr(Prop(home, "bannerImage"), SampleBanner0),
         bannerLink := StringOr(Prop(home, "bannerLink"), DefaultLink),
         noticeText := StringOr(Prop(home, "noticeText"), DefaultNotice))
  }

  /** `migrateDraft(raw)`: total on every stored value. */
  function Migrate(raw: Json): (d: Draft)
    ensures WellFormed(d)
    ensures d.brand == MigrateBrand(Prop(Some(raw), "brand"))
    ensures d.navigation.tabs == MigrateTabs(Prop(Some(raw), "navigation"))
    ensures d.home == MigrateHome(Prop(Some(raw), "home"))
    ensures var url := AsString(Prop(Prop(Some(raw), "site"), "url"));
            d.site.url == if url.Some? then url.value else ""
  {
    var root := Some(raw);
    Draft(MigrateBrand(Prop(root, "brand")),
          Navigation(MigrateTabs(Prop(root, "navigation"))),
          MigrateHome(Prop(root, "home")),
          Site(StringOr(Prop(Prop(root, "site"), "url"), "")))
  }

  /** The draft every value without usable groups migrates to. */
  function EmptyMigration(): Draft
  {
    Draft(Brand(DefaultAppName, DefaultPrimary, DefaultSecondary, DefaultTextColor, System),
          Navigation([]),
          Home(SampleBanner0, DefaultLink, DefaultNotice),
          Site(""))
  }

  /** null, strings, numbers, booleans, arrays and the empty object all
      migrate to the defaults, with no tabs. */
  lemma MigrateNonObject(raw: Json)
    requires !raw.JObject? || raw.fields.Keys !! {"brand", "navigation", "home", "site"}
    ensures Migrate(raw) == EmptyMigration()
  {
  }

  /** The tab list keeps the stored list's length and order, migrating each
      element independently; anything but an array gives no tabs. */
  lemma MigrateTabsShape(raw: Json)
    ensures var stored := Prop(Prop(Some(raw), "navigation"), "tabs");
            var tabs := Migrate(raw).navigation.tabs;
            (stored.Some? && stored.value.JArray? ==>
               |tabs| == |stored.value.items|
               && forall i :: 0 <= i < |tabs| ==> tabs[i] == MigrateTab(stored.value.items[i]))
            && (!(stored.Some? && stored.value.JArray?) ==> tabs == [])
  {
  }

  /* ===== The stored form ===== */

  function EncodeTab(t: Tab): Json
  {
    var fields := map["label" := JString(t.caption), "url" := JString(t.url),
                      "iconKind" := JString(KindName(t.iconKind))];
    var withBuiltin := if t.builtin.Some? then fields["builtin" := t.builtin.value] else fields;
    var withEmoji := if t.emoji.Some? then withBuiltin["emoji" := JString(t.emoji.value)] else withBuiltin;
    JObject(if t.iconImage.Some? then withEmoji["iconImage" := JString(t.iconImage.value)] else withEmoji)
  }

  function EncodeBrand(b: Brand): Json
  {
    JObject(map["appName" := JString(b.appName), "primary" := JString(b.primary),
                "secondary" := JString(b.secondary), "textColor" := JString(b.textColor),
                "fontFamily" := JString(FontName(b.fontFamily))])
  }

  function EncodeNavigation(n: Navigation): Json
  {
    JObject(map["tabs" := JArray(seq(|n.tabs|, i requires 0 <= i < |n.tabs| => EncodeTab(n.tabs[i])))])
  }

  function EncodeHome(h: Home): Json
  {
    JObject(map["bannerImage" := JString(h.bannerImage), "bannerLink" := JString(h.bannerLink),
                "noticeText" := JString(h.noticeText)])
  }

  /** The value `JSON.parse(JSON.stringify(d))` gives back: absent optional
      fields are left out, as `JSON.stringify` drops undefined properties. */
  function Encode(d: Draft): Json
  {
    JObject(map["brand" := EncodeBrand(d.brand), "navigation" := EncodeNavigation(d.navigation),
                "home" := EncodeHome(d.home), "site" := JObject(map["url" := JString(d.site.url)])])
  }

  /** Reference definition of what a reload does to a tab: the missing icon
      fields get their defaults, a null `builtin` becomes 'home'. */
  function CompleteTab(t: Tab): Tab
  {
    t.(builtin := Some(if t.builtin.None? || t.builtin.value.JNull? then JString("home") else t.builtin.value),
       emoji := Some(if t.emoji.Some? then t.emoji.value else DefaultEmoji),
       iconImage := Some(if t.iconImage.Some? then t.iconImage.value else ""))
  }

  /** Reference definition of what a reload does to the brand: the colours
      are sanitised against their defaults. */
  function SanitizeBrand(b: Brand): Brand
  {
    b.(primary := SanitizeHex(Some(JString(b.primary)), DefaultPrimary),
       secondary := SanitizeHex(Some(JString(b.secondary)), DefaultSecondary),
       textColor := SanitizeHex(Some(JString(b.textColor)), DefaultTextColor))
  }

  /** Reference definition of what a save followed by a reload does to a
      draft: colours are sanitised and tabs completed; every other field is kept. */
  function Normalize(d: Draft): Draft
  {
    var tabs := d.navigation.tabs;
    d.(brand := SanitizeBrand(d.brand),
       navigation := Navigation(seq(|tabs|, i requires 0 <= i < |tabs| => CompleteTab(tabs[i]))))
  }

  lemma {:induction false} TabReload(t: Tab)
    ensures MigrateTab(EncodeTab(t)) == CompleteTab(t)
  {
    var e := EncodeTab(t);
    assert Prop(Some(e), "label") == Some(JString(t.caption));
    assert Prop(Some(e), "url") == Some(JString(t.url));
    assert Prop(Some(e), "iconKind") == Some(JString(KindName(t.iconKind)));
    assert Prop(Some(e), "builtin") == t.builtin;
    assert AsString(Prop(Some(e), "emoji")) == t.emoji;
    assert AsString(Prop(Some(e), "iconImage")) == t.iconImage;
    assert MigrateIconKind(Prop(Some(e), "iconKind")) == t.iconKind;
  }

  lemma BrandReload(b: Brand)
    ensures MigrateBrand(Some(EncodeBrand(b))) == SanitizeBrand(b)
  {
    var e := Some(EncodeBrand(b));
    assert Prop(e, "appName") == Some(JString(b.appName));
    assert Prop(e, "primary") == Some(JString(b.primary));
    assert Prop(e, "secondary") == Some(JString(b.secondary));
    assert Prop(e, "textColor") == Some(JString(b.textColor));
    assert Prop(e, "fontFamily") == Some(JString(FontName(b.fontFamily)));
    assert MigrateFont(Prop(e, "fontFamily")) == b.fontFamily;
  }

  lemma {:induction false} TabsReload(n: Navigation)
    ensures MigrateTabs(Some(EncodeNavigation(n))) == seq(|n.tabs|, i requires 0 <= i < |n.tabs| => CompleteTab(n.tabs[i]))
  {
    var tabs := n.tabs;
    var stored := Prop(Some(EncodeNavigation(n)), "tabs");
    assert stored.Some? && stored.value.JArray?;
    var items := stored.value.items;
    assert |items| == |tabs|;
    var migrated := MigrateTabs(Some(EncodeNavigation(n)));
    forall i | 0 <= i < |tabs|
      ensures migrated[i] == CompleteTab(tabs[i])
    {
      assert items[i] == EncodeTab(tabs[i]);
      TabReload(tabs[i]);
    }
  }

  /** Saving a draft and migrating what was saved gives its normalised form. */
  lemma {:induction false} SaveReload(d: Draft)
    ensures Migrate(Encode(d)) == Normalize(d)
  {
    var root := Some(Encode(d));
    assert Prop(root, "brand") == Some(EncodeBrand(d.brand));
    assert Prop(root, "navigation") == Some(EncodeNavigation(d.navigation));
    assert Prop(root, "home") == Some(EncodeHome(d.home));
    assert Prop(Prop(root, "site"), "url") == Some(JString(d.site.url));
    BrandReload(d.brand);
    TabsReload(d.navigation);
  }

  /** A well-formed draft is its own normal form. */
  lemma {:induction false} NormalizeWellFormed(d: Draft)
    requires WellFormed(d)
    ensures Normalize(d) == d
  {
    HexColorIsTrimmed(d.brand.primary);
    HexColorIsTrimmed(d.brand.secondary);
    HexColorIsTrimmed(d.brand.textColor);
    var tabs := d.navigation.tabs;
    assert Normalize(d).navigation.tabs == tabs by {
      forall i | 0 <= i < |tabs| ensures CompleteTab(tabs[i]) == tabs[i] {
        assert TabWellFormed(tabs[i]);
      }
    }
  }

  /** Saving then reloading a well-formed draft gives it back unchanged. */
  lemma RoundTrip(d: Draft)
    requires WellFormed(d)
    ensures Migrate(Encode(d)) == d
  {
    SaveReload(d);
    NormalizeWellFormed(d);
  }

  /** Migration is idempotent: migrating a migrated draft, viewed as stored
      data, changes nothing. */
  lemma MigrateIdempotent(raw: Json)
    ensures Migrate(Encode(Migrate(raw))) == Migrate(raw)
  {
    RoundTrip(Migrate(raw));
  }

  /** A stored list of three well-formed tabs comes back with the same three
      tabs, in the same order, with the same field values. */
  lemma ThreeTabsRoundTrip(d: Draft)
    requires WellFormed(d) && |d.navigation.tabs| == 3
    ensures Migrate(Encode(d)).navigation.tabs == d.navigation.tabs
  {
    RoundTrip(d);
  }

  /* ===== The initial draft ===== */

  function InitialDraft(): (d: Draft)
    ensures IsHexColor(d.brand.primary) && IsHexColor(d.brand.secondary) && IsHexColor(d.brand.textColor)
    ensures d.site.url != ""
  {
    Draft(
      Brand(DefaultAppName, DefaultPrimary, DefaultSecondary, DefaultTextColor, System),
      Navigation([
        Tab("Home", DefaultLink, Builtin, Some(JString("home")), None, None),
        Tab("Shop", "https://ornek.com/kategori", Builtin, Some(JString("shopping_bag")), None, None),
        Tab("Hesap", "https://ornek.com/account", Builtin, Some(JString("person")), None, None)]),
      Home(SampleBanner0, DefaultLink, DefaultNotice),
      Site("https://www.arslanzade.com.tr/"))
  }

  /* ===== Preview helpers ===== */

  function HexDigitValue(c: char): (v: nat)
    requires IsHexDigit(c)
    ensures v < 16
  {
    if '0' <= c <= '9' then c as int - '0' as int
    else if 'a' <= c <= 'f' then c as int - 'a' as int + 10
    else c as int - 'A' as int + 10
  }

  /** The number of hex digits at the start of `s`. */
  function HexRunLength(s: string): (n: nat)
    ensures n <= |s|
    ensures forall i :: 0 <= i < n ==> IsHexDigit(s[i])
    ensures n < |s| ==> !IsHexDigit(s[n])
  {
    if |s| > 0 && IsHexDigit(s[0]) then 1 + HexRunLength(s[1..]) else 0
  }

  /** The value of a run of hex digits, most significant first. */
  function HexValue(ds: string): nat
    requires forall i :: 0 <= i < |ds| ==> IsHexDigit(ds[i])
  {
    if ds == [] then 0 else 16 * HexValue(ds[..|ds| - 1]) + HexDigitValue(ds[|ds| - 1])
  }

  /** `parseInt(s, 16)`, None standing for NaN: leading white space and one
      sign are skipped, then an optional "0x"/"0X", then the longest run of
      hex digits is read; no digits at all gives NaN. */
  function ParseIntHex(s: string): (r: Option<int>)
    ensures (forall i :: 0 <= i < |s| ==> !IsHexDigit(s[i])) ==> r.None?
  {
    var t := s[SkipSpaces(s, 0)..];
    var negative := |t| > 0 && t[0] == '-';
    var u := if |t| > 0 && (t[0] == '-' || t[0] == '+') then t[1..] else t;
    var w := if |u| >= 2 && u[0] == '0' && (u[1] == 'x' || u[1] == 'X') then u[2..] else u;
    var n := HexRunLength(w);
    assert w == s[|s| - |w|..];
    if n == 0 then None
    else
      var v: int := HexValue(w[..n]);
      Some(if negative then -v else v)
  }

  /** `s.slice(from, to)` for 0 <= from <= to. */
  function Slice(s: string, from: nat, to: nat): (r: string)
    requires from <= to
    ensures |r| <= to - from
    ensures to <= |s| ==> r == s[from..to]
    ensures from <= |s| < to ==> r == s[from..]
    ensures |s| < from ==> r == []
  {
    var hi := if to <= |s| then to else |s|;
    var lo := if from <= hi then from else hi;
    s[lo..hi]
  }

  /** `s.replace('#', '')`: drops the first '#' only. */
  function DropFirstHash(s: string): (r: string)
    ensures '#' !in s ==> r == s
    ensures '#' in s ==> |r| == |s| - 1
  {
    if s == [] then []
    else if s[0] == '#' then s[1..]
    else
      assert s == [s[0]] + s[1..];
      [s[0]] + DropFirstHash(s[1..])
  }

  /** `replace` with a string pattern removes the first occurrence and keeps
      everything before and after it. */
  lemma {:induction false} DropFirstHashSpec(s: string, i: nat)
    requires i < |s| && s[i] == '#' && '#' !in s[..i]
    ensures DropFirstHash(s) == s[..i] + s[i + 1..]
  {
    if i > 0 {
      assert s[0] != '#' by { assert s[..i][0] == s[0]; }
      assert s[1..][..i - 1] == s[1..i];
      assert '#' !in s[1..][..i - 1] by {
        forall c | c in s[1..i] ensures c in s[..i] {
          var k :| 0 <= k < i - 1 && s[1..i][k] == c;
          assert s[..i][k + 1] == c;
        }
      }
      DropFirstHashSpec(s[1..], i - 1);
      assert s[1..][i..] == s[i + 1..];
      assert [s[0]] + s[1..i] == s[..i];
    }
  }

  /** Perceived brightness r*299 + g*587 + b*114 (a thousand times the
      source's value, so that the threshold 186 becomes 186000 and stays exact). */
  function Luma(r: int, g: int, b: int): int
  {
    r * 299 + g * 587 + b * 114
  }

  /** `contrastOn(hex)`: the text colour shown on a background. A channel
      that does not parse is NaN, and every comparison with NaN is false. */
  function ContrastOn(hex: string): (r: string)
    ensures r == DarkText || r == LightText
  {
    var h := DropFirstHash(hex);
    var red, green, blue := ParseIntHex(Slice(h, 0, 2)), ParseIntHex(Slice(h, 2, 4)), ParseIntHex(Slice(h, 4, 6));
    if red.Some? && green.Some? && blue.Some? && Luma(red.value, green.value, blue.value) >= 186000
    then DarkText else LightText
  }

  /** The byte a well-formed colour holds at positions i and i + 1. */
  function ByteAt(hex: string, i: nat): (v: nat)
    requires IsHexColor(hex) && 1 <= i <= 5
    ensures v < 256
  {
    16 * HexDigitValue(hex[i]) + HexDigitValue(hex[i + 1])
  }

  lemma ParseTwoHexDigits(a: char, b: char)
    requires IsHexDigit(a) && IsHexDigit(b)
    ensures ParseIntHex([a, b]) == Some(16 * HexDigitValue(a) + HexDigitValue(b))
  {
    var s := [a, b];
    assert SkipSpaces(s, 0) == 0;
    assert s[0..] == s;
    assert HexRunLength(s) == 2 by {
      assert s[1..] == [b];
      assert HexRunLength([b]) == 1;
    }
    assert s[..2] == s;
    assert s[..1] == [a];
    assert HexValue([a]) == HexDigitValue(a) by {
      assert [a][..0] == [];
    }
  }

  /** On a well-formed colour, dark text is chosen exactly when the
      brightness of its three bytes reaches the threshold. */
  lemma ContrastOnHexColor(hex: string)
    requires IsHexColor(hex)
    ensures ContrastOn(hex) == DarkText <==> Luma(ByteAt(hex, 1), ByteAt(hex, 3), ByteAt(hex, 5)) >= 186000
  {
    var h := DropFirstHash(hex);
    assert h == hex[1..];
    assert Slice(h, 0, 2) == [hex[1], hex[2]];
    assert Slice(h, 2, 4) == [hex[3], hex[4]];
    assert Slice(h, 4, 6) == [hex[5], hex[6]];
    assert IsHexDigit(hex[1]) && IsHexDigit(hex[2]) && IsHexDigit(hex[3]);
    assert IsHexDigit(hex[4]) && IsHexDigit(hex[5]) && IsHexDigit(hex[6]);
    ParseTwoHexDigits(hex[1], hex[2]);
    ParseTwoHexDigits(hex[3], hex[4]);
    ParseTwoHexDigits(hex[5], hex[6]);
  }

  /** `fontStackOf(f)`: the CSS font stack of a font. */
  function FontStackOf(f: FontFamily): string
  {
    match f
    case Inter => "Inter," + " ui-sans-serif, system-ui, -apple-system, Segoe UI, Roboto, Arial"
    case Roboto => "Roboto," + " ui-sans-serif, system-ui, -apple-system, Segoe UI, Arial"
    case Poppins => "Poppins," + " ui-sans-serif, system-ui, -apple-system, Segoe UI, Arial"
    case System => "ui-sans-serif," + " system-ui, -apple-system, Segoe UI, Roboto, Arial"
  }

  /** A named font leads its own stack; the system stack starts with the
      generic system font. */
  lemma FontStackLeadsWithFont(f: FontFamily)
    ensures f != System ==> StartsWith(FontStackOf(f), FontName(f) + ",")
    ensures f == System ==> StartsWith(FontStackOf(f), "ui-sans-serif,")
  {
    match f
    case System => assert FontStackOf(System)[..14] == "ui-sans-serif,";
    case Inter => assert FontStackOf(Inter)[..6] == "Inter,";
    case Roboto => assert FontStackOf(Roboto)[..7] == "Roboto,";
    case Poppins => assert FontStackOf(Poppins)[..8] == "Poppins,";
  }

  /** The first character of each stack; the four are different. */
  lemma FontStackStartsWith(f: FontFamily)
    ensures |FontStackOf(f)| > 0
    ensures FontStackOf(f)[0] == match f case Inter => 'I' case Roboto => 'R' case Poppins => 'P' case System => 'u'
  {
    match f
    case System => assert FontStackOf(System)[0] == "ui-sans-serif,"[0];
    case Inter => assert FontStackOf(Inter)[0] == "Inter,"[0];
    case Roboto => assert FontStackOf(Roboto)[0] == "Roboto,"[0];
    case Poppins => assert FontStackOf(Poppins)[0] == "Poppins,"[0];
  }

  /** Different fonts get different stacks. */
  lemma FontStackInjective(f: FontFamily, g: FontFamily)
    requires FontStackOf(f) == FontStackOf(g)
    ensures f == g
  {
    FontStackStartsWith(f);
    FontStackStartsWith(g);
  }

  /** The address handed to the URL parser by `normalizeUrl`: an address
      that does not start with "http" gets "https://" in front. */
  function WithScheme(u: string): (r: string)
    ensures StartsWith(r, "http")
    ensures StartsWith(u, "http") ==> r == u
    ensures !StartsWith(u, "http") ==> r == "https://" + u
  {
    if StartsWith(u, "http") then u else "https://" + u
  }

  lemma WithSchemeIdempotent(u: string)
    ensures WithScheme(WithScheme(u)) == WithScheme(u)
  {
  }

  /** `normalizeUrl(u)`: the parser's serialisation of the schemed address,
      or '' when it does not parse. */
  function NormalizeUrl(u: string, p: UrlParser): (r: string)
    ensures p.parse(WithScheme(u)).Abrupt? ==> r == ""
    ensures p.parse(WithScheme(u)).Normal? ==> r == p.parse(WithScheme(u)).value.href
    ensures Serialises(p) ==> (r == "" <==> p.parse(WithScheme(u)).Abrupt?)
  {
    match p.parse(WithScheme(u))
    case Normal(url) => url.href
    case Abrupt(_) => ""
  }

  /* ===== The font as the source reads it ===== */

  /** `FONT_OPTIONS.includes(String(fontCandidate)) ? fontCandidate : 'System'`,
      as written: the raw value is kept whenever its string form is a font
      name, and `String(...)` itself may throw. */
  function FontAsWritten(candidate: Option<Json>): (r: Completion<Json>)
    ensures candidate.None? ==> r == Normal(JString("System"))
    ensures r.Abrupt? <==> candidate.Some? && ToJsString(candidate.value).Abrupt?
    ensures r.Normal? ==> r.value == JString("System") || Some(r.value) == candidate
    ensures candidate.Some? && ToJsString(candidate.value).Normal?
            ==> (r == Normal(candidate.value) <==> ToJsString(candidate.value).value in FontOptions)
  {
    match candidate
    case None => Normal(JString("System"))
    case Some(v) =>
      match ToJsString(v)
      case Abrupt(t) => Abrupt(t)
      case Normal(s) => if s in FontOptions then Normal(v) else Normal(JString("System"))
  }

  /** On string values the source and the model agree. */
  lemma FontAsWrittenOnStrings(s: string)
    ensures FontAsWritten(Some(JString(s))) == Normal(JString(FontName(MigrateFont(Some(JString(s))))))
  {
  }

  /** A one-element array holding a font name is kept as the array: the
      resulting "font" is not one of the four names. */
  lemma FontAsWrittenKeepsArray()
    ensures FontAsWritten(Some(JArray([JString("Inter")]))) == Normal(JArray([JString("Inter")]))
    ensures MigrateFont(Some(JArray([JString("Inter")]))) == System
  {
    assert JoinItems([JString("Inter")]) == Normal("Inter");
  }

  /** An object with a `toString` key makes `String(...)` throw, so
      `migrateDraft` throws instead of returning a draft. */
  lemma FontAsWrittenThrows()
    ensures FontAsWritten(Some(JObject(map["toString" := JNumber(0)]))).Abrupt?
    ensures MigrateFont(Some(JObject(map["toString" := JNumber(0)]))) == System
  {
  }
}
