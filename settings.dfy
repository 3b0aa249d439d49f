/**
 * Download settings: validating the value read back from local storage, and
 * deriving the downloaded file's name and MIME type.
 */
module DownloadConfig {
  import opened Wrappers

  datatype Format = Png | Jpeg

  datatype Settings = Settings(filename: string, format: Format)

  const DefaultName := "doc-master-document"

  /** The settings the page starts with. */
  const Defaults := Settings(DefaultName, Png)

  /** A parsed JSON value. */
  datatype Json =
    | JNull
    | JBool(b: bool)
    | JNum(n: real)
    | JStr(s: string)
    | JArr(items: seq<Json>)
    | JObj(fields: map<string, Json>)

  function FormatName(f: Format): string
  {
    match f
    case Png => "png"
    case Jpeg => "jpeg"
  }

  /** The JSON object the page stores for `s`. */
  function ToJson(s: Settings): (v: Json)
    ensures v.JObj? && v.fields.Keys == {"filename", "format"}
    ensures Validate(v) == Some(s)
  {
    JObj(map["filename" := JStr(s.filename), "format" := JStr(FormatName(s.format))])
  }

  /**
   * The shape test on a parsed value: an object whose `filename` is a string
   * and whose `format` is exactly "png" or "jpeg".
   */
  function Validate(v: Json): (r: Option<Settings>)
    ensures r.Some? <==>
      && v.JObj? && "filename" in v.fields && v.fields["filename"].JStr?
      && "format" in v.fields && v.fields["format"] in {JStr("png"), JStr("jpeg")}
    ensures r.Some? ==> v.fields["filename"] == JStr(r.value.filename)
    ensures r.Some? ==> v.fields["format"] == JStr(FormatName(r.value.format))
  {
    if v.JObj? && "filename" in v.fields && v.fields["filename"].JStr? && "format" in v.fields then
      var f := v.fields["format"];
      if f == JStr("png") then Some(Settings(v.fields["filename"].s, Png))
      else if f == JStr("jpeg") then Some(Settings(v.fields["filename"].s, Jpeg))
      else None
    else None
  }

  /** Local storage holds a non-empty value that parses and passes the shape test. */
  predicate Adoptable(stored: Option<string>, parse: string -> Option<Json>)
  {
    stored.Some? && stored.value != "" && parse(stored.value).Some?
    && Validate(parse(stored.value).value).Some?
  }

  /**
   * Start-up load: `stored` is what local storage holds (`None` when the key
   * is missing) and `parse` stands for `JSON.parse` (`None` when it throws).
   * The stored value is adopted only when it is non-empty, parses and passes
   * the shape test; otherwise `current` is kept.
   */
  function Load(current: Settings, stored: Option<string>, parse: string -> Option<Json>): (r: Settings)
    ensures Adoptable(stored, parse) ==> r == Validate(parse(stored.value).value).value
    ensures !Adoptable(stored, parse) ==> r == current
  {
    if stored.None? || stored.value == "" then current
    else
      match parse(stored.value)
      case None => current
      case Some(v) =>
        match Validate(v)
        case Some(s) => s
        case None => current
  }

  /** A stored value that fails the shape test leaves the settings as they were. */
  lemma LoadRejectsBadShape(current: Settings, text: string, parse: string -> Option<Json>)
    requires parse(text).Some? && Validate(parse(text).value).None?
    ensures Load(current, Some(text), parse) == current
  {
  }

  /** What the page stores is what it loads back. */
  lemma LoadStoredRoundTrip(current: Settings, s: Settings, text: string, parse: string -> Option<Json>)
    requires text != "" && parse(text) == Some(ToJson(s))
    ensures Load(current, Some(text), parse) == s
  {
    assert ToJson(s).fields["format"] == JStr(FormatName(s.format));
  }

  /** A stored `{filename: "", format: "gif"}` is discarded for the defaults. */
  lemma LoadDiscardsGif(text: string, parse: string -> Option<Json>)
    requires text != ""
    requires parse(text) == Some(JObj(map["filename" := JStr(""), "format" := JStr("gif")]))
    ensures Load(Defaults, Some(text), parse) == Defaults
  {
    var v := parse(text).value;
    assert v.fields["format"] == JStr("gif");
    assert Validate(v).None?;
  }

  // ---------------------------------------------------------------------
  // String.prototype.trim
  // ---------------------------------------------------------------------

  /**
   * The code points `trim` removes: ECMAScript WhiteSpace (tab, vertical tab,
   * form feed, space, no-break space, the byte order mark and the other
   * space separators) and LineTerminator (LF, CR, U+2028, U+2029).
   */
  predicate IsJsSpace(c: char)
  {
    var n := c as int;
    || n == 0x09 || n == 0x0A || n == 0x0B || n == 0x0C || n == 0x0D || n == 0x20
    || n == 0xA0 || n == 0x1680 || (0x2000 <= n <= 0x200A)
    || n == 0x2028 || n == 0x2029 || n == 0x202F || n == 0x205F || n == 0x3000 || n == 0xFEFF
  }

  /** The number of leading white-space characters. */
  function Lead(s: string): (k: nat)
    ensures k <= |s|
    ensures forall i :: 0 <= i < k ==> IsJsSpace(s[i])
    ensures k < |s| ==> !IsJsSpace(s[k])
  {
    if s == [] || !IsJsSpace(s[0]) then 0 else 1 + Lead(s[1..])
  }

  /** The number of trailing white-space characters. */
  function Trail(s: string): (k: nat)
    ensures k <= |s|
    ensures forall i :: |s| - k <= i < |s| ==> IsJsSpace(s[i])
    ensures k < |s| ==> !IsJsSpace(s[|s| - 1 - k])
  {
    if s == [] || !IsJsSpace(s[|s| - 1]) then 0 else 1 + Trail(s[..|s| - 1])
  }

  /** `s.trim()`: drop the leading and the trailing white space. */
  function Trim(s: string): (r: string)
    ensures r != [] ==> !IsJsSpace(r[0]) && !IsJsSpace(r[|r| - 1])
    ensures r == [] <==> forall i :: 0 <= i < |s| ==> IsJsSpace(s[i])
  {
    var t := s[Lead(s)..];
    t[..|t| - Trail(t)]
  }

  /** A trimmed string is trimmed already. */
  lemma TrimIdempotent(s: string)
    ensures Trim(Trim(s)) == Trim(s)
  {
    var r := Trim(s);
    if r != [] {
      assert Lead(r) == 0;
      assert Trail(r) == 0;
    }
  }

  /** `t` is the part of `s` from index `i` on, for `|t|` characters. */
  predicate InfixAt(t: string, s: string, i: int)
  {
    0 <= i && i + |t| <= |s| && s[i..i + |t|] == t
  }

  /** Trimming keeps a middle part and removes only white space around it. */
  lemma TrimIsInfix(s: string)
    ensures exists i :: (InfixAt(Trim(s), s, i)
                         && (forall k :: 0 <= k < i ==> IsJsSpace(s[k]))
                         && (forall k :: i + |Trim(s)| <= k < |s| ==> IsJsSpace(s[k])))
  {
    var i, t := Lead(s), s[Lead(s)..];
    assert s[i..i + |Trim(s)|] == Trim(s);
    assert InfixAt(Trim(s), s, i);
    forall k | i + |Trim(s)| <= k < |s|
      ensures IsJsSpace(s[k])
    {
      assert s[k] == t[k - i];
    }
  }

  // ---------------------------------------------------------------------
  // The downloaded file
  // ---------------------------------------------------------------------

  function Extension(f: Format): (e: string)
    ensures e == "jpg" <==> f == Jpeg
  {
    if f == Jpeg then "jpg" else "png"
  }

  /** The MIME type the canvas is encoded with. */
  function Mime(f: Format): (m: string)
    ensures m == "image/" + FormatName(f)
  {
    if f == Jpeg then "image/jpeg" else "image/png"
  }

  /** The base name: the trimmed file name, or the default name when that is empty. */
  function BaseName(s: Settings): (b: string)
    ensures b != [] && !IsJsSpace(b[0]) && !IsJsSpace(b[|b| - 1])
    ensures b == DefaultName <==> (Trim(s.filename) == [] || Trim(s.filename) == DefaultName)
  {
    var t := Trim(s.filename);
    if t != [] then t else DefaultName
  }

  /** `${baseName}.${ext}` */
  function DownloadName(s: Settings): (name: string)
    ensures |name| > 4
    ensures name[|name| - 4..] == (if s.format == Jpeg then ".jpg" else ".png")
  {
    var b, e := BaseName(s), "." + Extension(s.format);
    assert (b + e)[|b + e| - 4..] == e;
    b + e
  }

  /**
   * The name is the trimmed file name (the default name when that is blank)
   * followed by ".jpg" for JPEG and ".png" for PNG.
   */
  lemma DownloadNameShape(s: Settings)
    ensures var name := DownloadName(s);
      && |name| > 4
      && name[..|name| - 4] == (if Trim(s.filename) != [] then Trim(s.filename) else DefaultName)
      && name[|name| - 4..] == (if s.format == Jpeg then ".jpg" else ".png")
  {
    var name := DownloadName(s);
    assert name == BaseName(s) + ("." + Extension(s.format));
    assert name[|name| - 4..] == "." + Extension(s.format);
    assert name[..|name| - 4] == BaseName(s);
  }

  /** The MIME type and the extension always name the same format. */
  lemma MimeMatchesExtension(f: Format)
    ensures Mime(f) == "image/jpeg" <==> Extension(f) == "jpg"
    ensures Mime(f) == "image/png" <==> Extension(f) == "png"
  {
  }
}
