/**
 * The notification the relay forwards for one visitor record
 * (api/track.js, lines 37-56): one field per attribute, each falling back to
 * a fixed placeholder when the attribute is missing or empty, and the user
 * agent cut to its first 100 characters inside a code fence.
 */
module Embed {
  import opened Wrappers

  const Unknown: string := "Bilinmiyor"
  const Direct: string := "Direct"
  const Fence: string := "```"
  const UserAgentLimit: nat := 100
  const Title: string := "🎯 Yeni Ziyaretçi Tespit Edildi"
  const Color: int := 0x8B5CF6
  const Footer: string := "LUAX Tracker v1.0"

  /**
   * The `connection` attribute: absent, an object whose `effectiveType` and
   * `downlink` arrive already rendered as text, or some other value such as
   * the collector's `'Unknown'` string (whose properties read as undefined).
   */
  datatype Connection =
    | NoConnection
    | ConnectionInfo(effectiveType: string, downlink: string)
    | ConnectionLabel(text: string)

  /** The request body; a property that is missing is `None`. */
  datatype Payload = Payload(
    ip: Option<string>,
    userAgent: Option<string>,
    platform: Option<string>,
    language: Option<string>,
    screenResolution: Option<string>,
    screenColorDepth: Option<nat>,
    timezone: Option<string>,
    referrer: Option<string>,
    connection: Connection,
    touchSupport: bool,
    cookiesEnabled: bool)

  datatype Field = Field(name: string, value: string, inline: bool)

  /** The names of the twelve fields, in order. */
  const FieldNames: seq<string> := [
    "🌐 IP Adresi", "🖥️ Platform", "🌍 Dil", "📱 User Agent", "📺 Ekran", "🎨 Renk Derinliği",
    "🕐 Saat Dilimi", "🔗 Referrer", "📶 Bağlantı", "📱 Touch", "🍪 Cookies", "⏰ Zaman"
  ]

  datatype Embed = Embed(title: string, color: int, fields: seq<Field>, timestamp: string, footer: string)

  /** JavaScript truthiness of an optional string: present and not empty. */
  predicate Present(v: Option<string>)
  {
    v.Some? && v.value != ""
  }

  /** `v || fallback` on an optional string. */
  function OrElse(v: Option<string>, fallback: string): string
  {
    if Present(v) then v.value else fallback
  }

  /** The shown text is the attribute when it is present and the fallback otherwise. */
  predicate ShowsOr(v: Option<string>, fallback: string, shown: string)
  {
    (Present(v) ==> shown == v.value) && (!Present(v) ==> shown == fallback)
  }

  function Min(a: int, b: int): int
  {
    if a <= b then a else b
  }

  /** The number a string of decimal digits denotes. */
  function DigitsValue(s: string): nat
    requires forall i :: 0 <= i < |s| ==> '0' <= s[i] <= '9'
  {
    if s == [] then 0 else DigitsValue(s[..|s| - 1]) * 10 + (s[|s| - 1] as int - '0' as int)
  }

  /** Decimal digits of a natural number, as a template literal renders values below 10^21. */
  function Decimal(n: nat): (r: string)
    ensures |r| >= 1
    ensures forall i :: 0 <= i < |r| ==> '0' <= r[i] <= '9'
    ensures DigitsValue(r) == n
    ensures n > 0 ==> r[0] != '0'
  {
    var digit := ['0' + (n % 10) as char];
    if n < 10 then digit
    else
      var high := Decimal(n / 10);
      assert (high + digit)[..|high|] == high;
      high + digit
  }

  /** Value of the "Renk Derinliği" field: a colour depth of 0 is falsy like a missing one. */
  function ColorDepthText(depth: Option<nat>): string
  {
    if depth.Some? && depth.value != 0 then Decimal(depth.value) + " bit" else Unknown
  }

  /** Value of the "Bağlantı" field. */
  function ConnectionText(c: Connection): string
  {
    match c
    case NoConnection => Unknown
    case ConnectionInfo(kind, downlink) => kind + " (" + downlink + " Mbps)"
    case ConnectionLabel(text) =>
      if text == "" then Unknown else "undefined (undefined Mbps)"
  }

  /**
   * The collector sends the label `Unknown` when the browser has no
   * connection information; the relay then reads both sub-fields as undefined.
   */
  lemma UnknownConnectionShowsUndefined()
    ensures ConnectionText(ConnectionLabel("Unknown")) == "undefined (undefined Mbps)"
    ensures ConnectionText(ConnectionLabel("Unknown")) != Unknown
  {
  }

  /** `(data.userAgent || "Bilinmiyor").substring(0, 100)` inside a code fence. */
  function UserAgentText(p: Payload): string
  {
    var ua := OrElse(p.userAgent, Unknown);
    Fence + ua[..Min(UserAgentLimit, |ua|)] + Fence
  }

  /**
   * The notification built from a visitor record. `localTime` stands for
   * `new Date(data.timestamp).toLocaleString('tr-TR')` and `isoNow` for
   * `new Date().toISOString()`, both computed outside the model.
   */
  function BuildEmbed(p: Payload, localTime: string, isoNow: string): (e: Embed)
    ensures e.title == Title && e.color == Color && e.footer == Footer && e.timestamp == isoNow
    ensures |e.fields| == 12
    ensures forall i :: 0 <= i < 12 ==> e.fields[i].name == FieldNames[i]
    ensures ShowsOr(p.ip, Unknown, e.fields[0].value)
    ensures ShowsOr(p.platform, Unknown, e.fields[1].value)
    ensures ShowsOr(p.language, Unknown, e.fields[2].value)
    ensures ShowsOr(p.screenResolution, Unknown, e.fields[4].value)
    ensures ShowsOr(p.timezone, Unknown, e.fields[6].value)
    ensures ShowsOr(p.referrer, Direct, e.fields[7].value)
    ensures var ua := if Present(p.userAgent) then p.userAgent.value else Unknown;
            var kept := if |ua| <= UserAgentLimit then |ua| else UserAgentLimit;
            e.fields[3].value == Fence + ua[..kept] + Fence
            && |e.fields[3].value| <= UserAgentLimit + 2 * |Fence|
    ensures e.fields[9].value == (if p.touchSupport then "✅ Var" else "❌ Yok")
    ensures e.fields[10].value == (if p.cookiesEnabled then "✅ Aktif" else "❌ Kapalı")
    ensures e.fields[11].value == localTime
    ensures forall i :: 0 <= i < 12 ==> e.fields[i].inline == (i !in {3, 7, 11})
  {
    Embed(
      Title,
      Color,
      [
        Field("🌐 IP Adresi", OrElse(p.ip, Unknown), true),
        Field("🖥️ Platform", OrElse(p.platform, Unknown), true),
        Field("🌍 Dil", OrElse(p.language, Unknown), true),
        Field("📱 User Agent", UserAgentText(p), false),
        Field("📺 Ekran", OrElse(p.screenResolution, Unknown), true),
        Field("🎨 Renk Derinliği", ColorDepthText(p.screenColorDepth), true),
        Field("🕐 Saat Dilimi", OrElse(p.timezone, Unknown), true),
        Field("🔗 Referrer", OrElse(p.referrer, Direct), false),
        Field("📶 Bağlantı", ConnectionText(p.connection), true),
        Field("📱 Touch", if p.touchSupport then "✅ Var" else "❌ Yok", true),
        Field("🍪 Cookies", if p.cookiesEnabled then "✅ Aktif" else "❌ Kapalı", true),
        Field("⏰ Zaman", localTime, false)
      ],
      isoNow,
      Footer)
  }

  /**
   * A user agent longer than 100 characters shows exactly its first 100
   * characters; a shorter one is shown whole.
   */
  lemma UserAgentTruncation(p: Payload, localTime: string, isoNow: string)
    requires Present(p.userAgent)
    ensures var v := BuildEmbed(p, localTime, isoNow).fields[3].value;
            var ua := p.userAgent.value;
            (|ua| <= UserAgentLimit ==> v == Fence + ua + Fence)
            && (|ua| > UserAgentLimit ==> |v| == UserAgentLimit + 6 && v[3..UserAgentLimit + 3] == ua[..UserAgentLimit])
  {
  }
}
