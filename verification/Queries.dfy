// The URLs of Channel::Dial, Channel::Create and Channel::SendDtmf, and what a server reads out of them.
module Queries {
  import opened Options
  import opened Base64
  import opened UrlEncoding
  import opened Strings
  import Decimal

  // ---- what the source sends ----

  function DialUrl(id: Bytes, endpoint: Bytes, application: Bytes, callerId: Bytes): string {
    "/ari/channels?" + "endpoint=" + UrlEncode(endpoint) + "&app=" + UrlEncode(application)
    + "&channelId=" + UrlEncode(id) + "&callerId=" + UrlEncode(callerId) + "&timeout=-1" + "&appArgs=internal"
  }

  function CreateUrl(id: Bytes, endpoint: Bytes, application: Bytes): string {
    "/ari/channels/create?" + "endpoint=" + UrlEncode(endpoint) + "&app=" + UrlEncode(application)
    + "&channelId=" + UrlEncode(id) + "&appArgs=internal"
  }

  function Optional(name: string, n: int): string {
    if n < 0 then "" else "&" + name + "=" + Decimal.ToString(n)
  }

  function SendDtmfUrl(id: Bytes, dtmf: Bytes, between: int, duration: int, before: int, after: int): string {
    "/ari/channels/" + id + "/dtmf?" + "dtmf=" + UrlEncode(dtmf) + Optional("between", between)
    + Optional("duration", duration) + Optional("before", before) + Optional("after", after)
  }

  // ---- what a server reads: the generic syntax of RFC 3986 ----

  // What may stand for itself in a path segment (section 3.3), and in a query (section 3.4).
  predicate SegmentChar(c: char) {
    Unreserved(c) || c in "!$&'()*+,;=:@"
  }

  predicate QueryChar(c: char) {
    SegmentChar(c) || c == '/' || c == '?'
  }

  function ReadSegment(s: string): Option<string> {
    if forall i :: 0 <= i < |s| ==> SegmentChar(s[i]) || s[i] == '%' then PercentDecode(s) else None
  }

  function ReadValue(s: string): Option<string> {
    if forall i :: 0 <= i < |s| ==> QueryChar(s[i]) || s[i] == '%' then PercentDecode(s) else None
  }

  datatype Field = Field(name: string, value: Option<string>)

  function ReadField(s: string): Field {
    var k := IndexOf(s, '=');
    if k == |s| then Field(s, None) else Field(s[..k], ReadValue(s[k + 1..]))
  }

  function ReadFields(parts: seq<string>): seq<Field> {
    seq(|parts|, i requires 0 <= i < |parts| => ReadField(parts[i]))
  }

  predicate IsDot(s: string) {
    s == "." || s == ".."
  }

  // Dot segments are resolved (section 5.2.4).
  function Resolved(ss: seq<string>): seq<string> {
    if ss == [] then []
    else
      var front, last := Resolved(ss[..|ss| - 1]), ss[|ss| - 1];
      if last == "." || (last == ".." && |front| <= 1) then front
      else if last == ".." then front[..|front| - 1]
      else front + [last]
  }

  function RemoveDots(ss: seq<string>): seq<string> {
    Resolved(ss) + if ss != [] && IsDot(ss[|ss| - 1]) then [""] else []
  }

  function ReadPath(p: string): seq<Option<string>> {
    var ss := RemoveDots(Split(p, '/'));
    seq(|ss|, i requires 0 <= i < |ss| => ReadSegment(ss[i]))
  }

  // The path ends at the first question mark or number sign.
  function PathOf(u: string): (p: string)
    ensures |p| <= |u| && p == u[..|p|] && Free(p, '?') && Free(p, '#')
    ensures |p| < |u| ==> u[|p|] == '?' || u[|p|] == '#'
  {
    var v := u[..IndexOf(u, '#')];
    v[..IndexOf(v, '?')]
  }

  datatype Url = Url(path: seq<Option<string>>, fields: seq<Field>)

  function ReadUrl(u: string): Url {
    var v := u[..IndexOf(u, '#')];
    var k := IndexOf(v, '?');
    Url(ReadPath(PathOf(u)), if k == |v| then [] else ReadFields(Split(v[k + 1..], '&')))
  }

  // ---- printing and reading fields ----

  // A field as the source prints it: a plain name, '=', and a text that decodes to the value.
  datatype Printed = Printed(name: string, text: string)

  function Text(p: Printed): string {
    p.name + "=" + p.text
  }

  predicate IsName(s: string) {
    forall i :: 0 <= i < |s| ==> Unreserved(s[i])
  }

  predicate IsEncoded(s: string) {
    forall i :: 0 <= i < |s| ==> Unreserved(s[i]) || s[i] == '%'
  }

  predicate Printable(p: Printed) {
    IsName(p.name) && IsEncoded(p.text)
  }

  predicate AllPrintable(ps: seq<Printed>) {
    forall i :: 0 <= i < |ps| ==> Printable(ps[i])
  }

  function Join(ps: seq<Printed>): string
    requires ps != []
  {
    if |ps| == 1 then Text(ps[0]) else Text(ps[0]) + "&" + Join(ps[1..])
  }

  function Read(ps: seq<Printed>): seq<Field> {
    seq(|ps|, i requires 0 <= i < |ps| => Field(ps[i].name, PercentDecode(ps[i].text)))
  }

  lemma ReadText(p: Printed)
    requires Printable(p)
    ensures ReadField(Text(p)) == Field(p.name, PercentDecode(p.text))
    ensures Free(Text(p), '&') && Free(Text(p), '#')
  {
    IndexUnique(Text(p), '=', p.name, p.text);
  }

  function Texts(ps: seq<Printed>): seq<string> {
    seq(|ps|, i requires 0 <= i < |ps| => Text(ps[i]))
  }

  lemma {:induction false} SplitJoin(ps: seq<Printed>)
    requires ps != [] && forall i :: 0 <= i < |ps| ==> Free(Text(ps[i]), '&')
    ensures Split(Join(ps), '&') == Texts(ps)
    decreases |ps|
  {
    if |ps| == 1 {
      assert Split(Text(ps[0]), '&') == [Text(ps[0])];
    } else {
      SplitFirst(Text(ps[0]), Join(ps[1..]), '&');
      SplitJoin(ps[1..]);
      assert Texts(ps) == [Text(ps[0])] + Texts(ps[1..]);
    }
  }

  lemma ReadTexts(ps: seq<Printed>)
    requires forall i :: 0 <= i < |ps| ==> ReadField(Text(ps[i])) == Field(ps[i].name, PercentDecode(ps[i].text))
    ensures ReadFields(Texts(ps)) == Read(ps)
  {
  }

  lemma ReadJoin(ps: seq<Printed>)
    requires ps != [] && AllPrintable(ps)
    ensures ReadFields(Split(Join(ps), '&')) == Read(ps)
  {
    forall i | 0 <= i < |ps|
      ensures Free(Text(ps[i]), '&')
    {
      ReadText(ps[i]);
    }
    SplitJoin(ps);
    forall i | 0 <= i < |ps|
      ensures ReadField(Text(ps[i])) == Field(ps[i].name, PercentDecode(ps[i].text))
    {
      ReadText(ps[i]);
    }
    ReadTexts(ps);
  }

  lemma EncodedField(name: string, v: Bytes)
    requires IsName(name)
    ensures Printable(Printed(name, UrlEncode(v))) && PercentDecode(UrlEncode(v)) == Some(v)
  {
    UrlEncodeCanonical(v);
    CanonicalCharacters(UrlEncode(v));
    DecodeUrlEncode(v);
  }

  lemma PlainField(name: string, v: string)
    requires IsName(name) && IsName(v)
    ensures Printable(Printed(name, v)) && PercentDecode(v) == Some(v)
  {
    DecodePlain(v);
  }

  lemma NumberField(name: string, n: nat)
    requires IsName(name)
    ensures Printable(Printed(name, Decimal.ToString(n)))
    ensures PercentDecode(Decimal.ToString(n)) == Some(Decimal.ToString(n))
  {
    Decimal.ParseToString(n);
    PlainField(name, Decimal.ToString(n));
  }

  lemma {:induction false} JoinFree(ps: seq<Printed>)
    requires ps != [] && AllPrintable(ps)
    ensures Free(Join(ps), '#')
    decreases |ps|
  {
    ReadText(ps[0]);
    if |ps| > 1 {
      JoinFree(ps[1..]);
    }
  }

  // A URL is read back as its path and its fields.
  lemma ReadBack(path: string, ps: seq<Printed>)
    requires Free(path, '?') && Free(path, '#') && ps != [] && AllPrintable(ps)
    ensures ReadUrl(path + "?" + Join(ps)) == Url(ReadPath(path), Read(ps))
  {
    var u := path + "?" + Join(ps);
    JoinFree(ps);
    FreeUrl(path, Join(ps));
    IndexUnique(u, '?', path, Join(ps));
    ReadJoin(ps);
  }

  lemma FreeUrl(path: string, query: string)
    requires Free(path, '#') && Free(query, '#')
    ensures var u := path + "?" + query; IndexOf(u, '#') == |u| && u[..|u|] == u
  {
  }

  // Appending a field to a URL.
  lemma {:induction false} JoinAppend(ps: seq<Printed>, p: Printed)
    requires ps != []
    ensures Join(ps + [p]) == Join(ps) + ("&" + Text(p))
    decreases |ps|
  {
    assert (ps + [p])[0] == ps[0] && (ps + [p])[1..] == ps[1..] + [p];
    if |ps| > 1 {
      JoinAppend(ps[1..], p);
    } else {
      assert ps[1..] + [p] == [p];
    }
  }

  lemma AddField(path: string, ps: seq<Printed>, url: string, p: Printed, mark: string)
    requires ps != [] && url == path + "?" + Join(ps) && mark == "&" + p.name + "="
    ensures url + mark + p.text == path + "?" + Join(ps + [p])
  {
    JoinAppend(ps, p);
    assert url + mark + p.text == url + ("&" + Text(p));
  }

  // ---- paths ----

  // The segments all paths begin with.
  function Root(): seq<Option<string>> {
    [Some(""), Some("ari"), Some("channels")]
  }

  lemma {:induction false} NoDots(ss: seq<string>)
    requires forall i :: 0 <= i < |ss| ==> !IsDot(ss[i])
    ensures Resolved(ss) == ss && RemoveDots(ss) == ss
    decreases |ss|
  {
    if ss != [] {
      NoDots(ss[..|ss| - 1]);
    }
  }

  // Only segments that are no dots are left, and perhaps an empty one.
  lemma {:induction false} ResolvedAmong(ss: seq<string>, x: string)
    requires x in Resolved(ss)
    ensures x in ss && !IsDot(x)
    decreases |ss|
  {
    var front, last := ss[..|ss| - 1], ss[|ss| - 1];
    if x in Resolved(front) {
      ResolvedAmong(front, x);
    }
  }

  const START := "/ari/channels/"

  lemma SplitRoot(rest: string)
    ensures Split(START + rest, '/') == ["", "ari", "channels"] + Split(rest, '/')
  {
    hide Split;
    SplitThree("", "ari", "channels", rest, '/');
    assert START + rest == "" + ['/'] + ("ari" + ['/'] + ("channels" + ['/'] + rest));
  }

  lemma ReadNames(ss: seq<string>)
    requires forall i :: 0 <= i < |ss| ==> IsName(ss[i]) && !IsDot(ss[i])
    ensures RemoveDots(ss) == ss && forall i :: 0 <= i < |ss| ==> ReadSegment(ss[i]) == Some(ss[i])
  {
    NoDots(ss);
    forall i | 0 <= i < |ss|
      ensures ReadSegment(ss[i]) == Some(ss[i])
    {
      DecodePlain(ss[i]);
    }
  }

  lemma DialPath()
    ensures ReadPath("/ari/channels") == Root()
  {
    hide Split, IndexOf, ReadPath, IsName, IsDot;
    NamesAreNames();
    SplitFree("channels", '/');
    SplitFirst("ari", "channels", '/');
    SplitFirst("", "ari" + ['/'] + "channels", '/');
    assert "/ari/channels" == "" + ['/'] + ("ari" + ['/'] + "channels");
    ReadNamePath("/ari/channels", ["", "ari", "channels"]);
  }

  lemma CreatePath()
    ensures ReadPath("/ari/channels/create") == Root() + [Some("create")]
  {
    hide Split, IndexOf, ReadPath, IsName, IsDot;
    NamesAreNames();
    SplitFree("create", '/');
    SplitRoot("create");
    assert START + "create" == "/ari/channels/create";
    ReadNamePath("/ari/channels/create", ["", "ari", "channels", "create"]);
  }

  lemma ReadNamePath(p: string, ss: seq<string>)
    requires Split(p, '/') == ss && forall i :: 0 <= i < |ss| ==> IsName(ss[i]) && !IsDot(ss[i])
    ensures |ReadPath(p)| == |ss| && forall i :: 0 <= i < |ss| ==> ReadPath(p)[i] == Some(ss[i])
  {
    ReadNames(ss);
  }

  // ---- Dial and Create ----

  // The fields they begin with.
  function CommonFields(id: Bytes, endpoint: Bytes, application: Bytes): (r: seq<Printed>)
    ensures |r| == 3
  {
    [Printed("endpoint", UrlEncode(endpoint))] + [Printed("app", UrlEncode(application))]
    + [Printed("channelId", UrlEncode(id))]
  }

  lemma CommonUrl(path: string, start: string, id: Bytes, endpoint: Bytes, application: Bytes)
    requires start == path + "?"
    ensures start + "endpoint=" + UrlEncode(endpoint) + "&app=" + UrlEncode(application) + "&channelId=" + UrlEncode(id)
      == path + "?" + Join(CommonFields(id, endpoint, application))
  {
    var p0, p1 := Printed("endpoint", UrlEncode(endpoint)), Printed("app", UrlEncode(application));
    var p2 := Printed("channelId", UrlEncode(id));
    var u0 := start + "endpoint=" + UrlEncode(endpoint);
    assert u0 == path + "?" + Join([p0]);
    AddField(path, [p0], u0, p1, "&app=");
    AddField(path, [p0] + [p1], u0 + "&app=" + UrlEncode(application), p2, "&channelId=");
  }

  lemma NamesAreNames()
    ensures IsName("between") && IsName("duration") && IsName("before") && IsName("after")
    ensures IsName("endpoint") && IsName("app") && IsName("channelId") && IsName("callerId")
    ensures IsName("") && IsName("ari") && IsName("channels") && IsName("create") && IsName("dtmf")
    ensures !IsDot("") && !IsDot("ari") && !IsDot("channels") && !IsDot("create") && !IsDot("dtmf")
  {
  }

  // A further field of a query, read back.
  lemma EncodedAppend(ps: seq<Printed>, name: string, v: Bytes)
    requires IsName(name) && AllPrintable(ps)
    ensures var all := ps + [Printed(name, UrlEncode(v))];
      && AllPrintable(all)
      && Read(all) == Read(ps) + [Field(name, Some(v))]
  {
    EncodedField(name, v);
  }

  lemma CommonRead(id: Bytes, endpoint: Bytes, application: Bytes)
    ensures var ps := CommonFields(id, endpoint, application);
      && AllPrintable(ps)
      && Read(ps) == [Field("endpoint", Some(endpoint)), Field("app", Some(application)), Field("channelId", Some(id))]
  {
    var p0, p1 := [Printed("endpoint", UrlEncode(endpoint))], [Printed("app", UrlEncode(application))];
    NamesAreNames();
    EncodedAppend([], "endpoint", endpoint);
    assert [] + p0 == p0 && Read([]) == [];
    EncodedAppend(p0, "app", application);
    EncodedAppend(p0 + p1, "channelId", id);
  }

  lemma ConstantField(path: string, ps: seq<Printed>, url: string, p: Printed, mark: string, text: string)
    requires ps != [] && url == path + "?" + Join(ps) && mark == "&" + p.name + "=" && text == mark + p.text
    requires IsName(p.name) && IsName(p.text)
    requires AllPrintable(ps)
    ensures url + text == path + "?" + Join(ps + [p])
    ensures AllPrintable(ps + [p])
    ensures Read(ps + [p]) == Read(ps) + [Field(p.name, Some(p.text))]
  {
    AddField(path, ps, url, p, mark);
    assert url + text == url + mark + p.text;
    PlainField(p.name, p.text);
  }

  function DialFields(id: Bytes, endpoint: Bytes, application: Bytes, callerId: Bytes): (r: seq<Printed>)
    ensures r != []
  {
    CommonFields(id, endpoint, application) + [Printed("callerId", UrlEncode(callerId))]
    + [Printed("timeout", "-1")] + [Printed("appArgs", "internal")]
  }

  lemma DialPrinted(id: Bytes, endpoint: Bytes, application: Bytes, callerId: Bytes)
    ensures var ps := DialFields(id, endpoint, application, callerId);
      && DialUrl(id, endpoint, application, callerId) == "/ari/channels" + "?" + Join(ps)
      && AllPrintable(ps)
      && Read(ps) == Read(CommonFields(id, endpoint, application)) + [Field("callerId", Some(callerId))]
           + [Field("timeout", Some("-1"))] + [Field("appArgs", Some("internal"))]
  {
    var path := "/ari/channels";
    var ps := CommonFields(id, endpoint, application);
    var url := "/ari/channels?" + "endpoint=" + UrlEncode(endpoint) + "&app=" + UrlEncode(application)
      + "&channelId=" + UrlEncode(id);
    CommonUrl(path, "/ari/channels?", id, endpoint, application);
    CommonRead(id, endpoint, application);
    NamesAreNames();
    AddEncoded(path, ps, url, "callerId", callerId, "&callerId=");
    DialConstants(path, url + "&callerId=" + UrlEncode(callerId), ps + [Printed("callerId", UrlEncode(callerId))]);
  }

  // For arbitrary strings, splitting the query of Dial recovers every argument.
  lemma DialRecovered(id: Bytes, endpoint: Bytes, application: Bytes, callerId: Bytes)
    ensures ReadUrl(DialUrl(id, endpoint, application, callerId)) == Url(Root(), [
      Field("endpoint", Some(endpoint)), Field("app", Some(application)), Field("channelId", Some(id)),
      Field("callerId", Some(callerId)), Field("timeout", Some("-1")), Field("appArgs", Some("internal"))])
  {
    var path, ps := "/ari/channels", DialFields(id, endpoint, application, callerId);
    DialPrinted(id, endpoint, application, callerId);
    CommonRead(id, endpoint, application);
    DialPath();
    hide ReadPath, ReadUrl;
    ReadBack(path, ps);
    Six(Field("endpoint", Some(endpoint)), Field("app", Some(application)), Field("channelId", Some(id)),
        Field("callerId", Some(callerId)), Field("timeout", Some("-1")), Field("appArgs", Some("internal")));
  }

  lemma Six<T>(a: T, b: T, c: T, d: T, e: T, f: T)
    ensures [a, b, c] + [d] + [e] + [f] == [a, b, c, d, e, f]
  {
  }

  lemma AddEncoded(path: string, ps: seq<Printed>, url: string, name: string, v: Bytes, mark: string)
    requires ps != [] && url == path + "?" + Join(ps) && mark == "&" + name + "="
    requires IsName(name) && AllPrintable(ps)
    ensures var all := ps + [Printed(name, UrlEncode(v))];
      && url + mark + UrlEncode(v) == path + "?" + Join(all)
      && AllPrintable(all)
      && Read(all) == Read(ps) + [Field(name, Some(v))]
  {
    AddField(path, ps, url, Printed(name, UrlEncode(v)), mark);
    EncodedAppend(ps, name, v);
  }

  lemma DialConstants(path: string, url: string, ps: seq<Printed>)
    requires ps != [] && url == path + "?" + Join(ps) && AllPrintable(ps)
    ensures var all := ps + [Printed("timeout", "-1")] + [Printed("appArgs", "internal")];
      && url + "&timeout=-1" + "&appArgs=internal" == path + "?" + Join(all)
      && AllPrintable(all)
      && Read(all) == Read(ps) + [Field("timeout", Some("-1"))] + [Field("appArgs", Some("internal"))]
  {
    ConstantField(path, ps, url, Printed("timeout", "-1"), "&timeout=", "&timeout=-1");
    ConstantField(path, ps + [Printed("timeout", "-1")], url + "&timeout=-1",
                  Printed("appArgs", "internal"), "&appArgs=", "&appArgs=internal");
  }

  lemma CreatePrinted(id: Bytes, endpoint: Bytes, application: Bytes)
    ensures var ps := CommonFields(id, endpoint, application) + [Printed("appArgs", "internal")];
      && CreateUrl(id, endpoint, application) == "/ari/channels/create" + "?" + Join(ps)
      && AllPrintable(ps)
      && Read(ps) == Read(CommonFields(id, endpoint, application)) + [Field("appArgs", Some("internal"))]
  {
    assert "/ari/channels/create?" == "/ari/channels/create" + "?";
    CreateWith("/ari/channels/create", "/ari/channels/create?", id, endpoint, application);
  }

  lemma CreateWith(path: string, start: string, id: Bytes, endpoint: Bytes, application: Bytes)
    requires start == path + "?"
    ensures var ps := CommonFields(id, endpoint, application) + [Printed("appArgs", "internal")];
      && start + "endpoint=" + UrlEncode(endpoint) + "&app=" + UrlEncode(application)
           + "&channelId=" + UrlEncode(id) + "&appArgs=internal" == path + "?" + Join(ps)
      && AllPrintable(ps)
      && Read(ps) == Read(CommonFields(id, endpoint, application)) + [Field("appArgs", Some("internal"))]
  {
    var url := start + "endpoint=" + UrlEncode(endpoint) + "&app=" + UrlEncode(application)
      + "&channelId=" + UrlEncode(id);
    CommonUrl(path, start, id, endpoint, application);
    CommonRead(id, endpoint, application);
    ConstantField(path, CommonFields(id, endpoint, application), url,
                  Printed("appArgs", "internal"), "&appArgs=", "&appArgs=internal");
  }

  lemma CreateRecovered(id: Bytes, endpoint: Bytes, application: Bytes)
    ensures ReadUrl(CreateUrl(id, endpoint, application)) == Url(Root() + [Some("create")], [
      Field("endpoint", Some(endpoint)), Field("app", Some(application)), Field("channelId", Some(id)),
      Field("appArgs", Some("internal"))])
  {
    CreatePrinted(id, endpoint, application);
    CommonRead(id, endpoint, application);
    CreatePath();
    hide ReadPath, ReadUrl;
    ReadBack("/ari/channels/create", CommonFields(id, endpoint, application) + [Printed("appArgs", "internal")]);
  }

  // ---- SendDtmf ----

  function OptionalField(name: string, n: int): seq<Printed> {
    if n < 0 then [] else [Printed(name, Decimal.ToString(n))]
  }

  // Appending an optional field to a query.
  lemma JoinOptional(ps: seq<Printed>, name: string, n: int)
    requires ps != []
    ensures Join(ps + OptionalField(name, n)) == Join(ps) + Optional(name, n)
  {
    if n < 0 {
      assert ps + [] == ps;
    } else {
      JoinAppend(ps, Printed(name, Decimal.ToString(n)));
    }
  }

  lemma OptionalPrintable(name: string, n: int)
    requires IsName(name)
    ensures AllPrintable(OptionalField(name, n))
  {
    if n >= 0 { NumberField(name, n); }
  }

  // An integer argument as a server sees it: absent if it is negative, and otherwise its decimal digits.
  function NumberArgument(name: string, n: int): seq<Field> {
    if n < 0 then [] else [Field(name, Some(Decimal.ToString(n)))]
  }

  lemma ReadOptional(name: string, n: int)
    requires IsName(name)
    ensures Read(OptionalField(name, n)) == NumberArgument(name, n)
    ensures n >= 0 ==> Decimal.IsDigits(Decimal.ToString(n)) && Decimal.Parse(Decimal.ToString(n)) == n
  {
    if n >= 0 {
      NumberField(name, n);
      Decimal.ParseToString(n);
    }
  }

  lemma ReadAppend(a: seq<Printed>, b: seq<Printed>)
    ensures Read(a + b) == Read(a) + Read(b)
  {
  }

  function DtmfFields(dtmf: Bytes, between: int, duration: int, before: int, after: int): seq<Printed> {
    [Printed("dtmf", UrlEncode(dtmf))] + OptionalField("between", between) + OptionalField("duration", duration)
    + OptionalField("before", before) + OptionalField("after", after)
  }

  lemma PrintableAppend(a: seq<Printed>, b: seq<Printed>)
    requires AllPrintable(a) && AllPrintable(b)
    ensures AllPrintable(a + b)
  {
  }

  lemma DtmfPrintable(dtmf: Bytes, between: int, duration: int, before: int, after: int)
    ensures var ps := DtmfFields(dtmf, between, duration, before, after); ps != [] && AllPrintable(ps)
  {
    var f0 := [Printed("dtmf", UrlEncode(dtmf))];
    var o1, o2 := OptionalField("between", between), OptionalField("duration", duration);
    var o3, o4 := OptionalField("before", before), OptionalField("after", after);
    EncodedField("dtmf", dtmf);
    assert AllPrintable(f0);
    OptionalPrintable("between", between);
    OptionalPrintable("duration", duration);
    OptionalPrintable("before", before);
    OptionalPrintable("after", after);
    hide AllPrintable, OptionalField;
    PrintableAppend(f0, o1);
    PrintableAppend(f0 + o1, o2);
    PrintableAppend(f0 + o1 + o2, o3);
    PrintableAppend(f0 + o1 + o2 + o3, o4);
  }

  lemma DtmfRead(dtmf: Bytes, between: int, duration: int, before: int, after: int)
    ensures Read(DtmfFields(dtmf, between, duration, before, after))
      == [Field("dtmf", Some(dtmf))] + NumberArgument("between", between) + NumberArgument("duration", duration)
         + NumberArgument("before", before) + NumberArgument("after", after)
  {
    EncodedField("dtmf", dtmf);
    var f0 := [Printed("dtmf", UrlEncode(dtmf))];
    var f1 := f0 + OptionalField("between", between);
    var f2 := f1 + OptionalField("duration", duration);
    var f3 := f2 + OptionalField("before", before);
    assert Read(f0) == [Field("dtmf", Some(dtmf))];
    NamesAreNames();
    hide Read, OptionalField, NumberArgument, IsName;
    ReadAppend(f0, OptionalField("between", between));
    ReadAppend(f1, OptionalField("duration", duration));
    ReadAppend(f2, OptionalField("before", before));
    ReadAppend(f3, OptionalField("after", after));
    ReadOptional("between", between);
    ReadOptional("duration", duration);
    ReadOptional("before", before);
    ReadOptional("after", after);
  }

  function DtmfPath(id: string): string {
    "/ari/channels/" + id + "/dtmf"
  }

  // A text that may stand in a path as a segment of its own, unencoded.
  predicate IsSegment(id: string) {
    !IsDot(id) && forall i :: 0 <= i < |id| ==> SegmentChar(id[i])
  }

  // The server reads the channel id, which SendDtmf does not encode, the digits and the non-negative numbers,
  // and nothing else, exactly when the id is a segment; when it is not, no segment is read as the id.
  lemma SendDtmfRecoveredIff(id: Bytes, dtmf: Bytes, between: int, duration: int, before: int, after: int)
    ensures var url := ReadUrl(SendDtmfUrl(id, dtmf, between, duration, before, after));
      && (url == Url(Root() + [Some(id), Some("dtmf")],
            [Field("dtmf", Some(dtmf))] + NumberArgument("between", between) + NumberArgument("duration", duration)
            + NumberArgument("before", before) + NumberArgument("after", after))
          <==> IsSegment(id))
      && (!IsSegment(id) ==> Some(id) !in url.path)
  {
    var ps := DtmfFields(dtmf, between, duration, before, after);
    DtmfPrintable(dtmf, between, duration, before, after);
    DtmfRead(dtmf, between, duration, before, after);
    DtmfUrl(id, dtmf, between, duration, before, after);
    if IsSegment(id) {
      IdIsDecoded(id, dtmf, between, duration, before, after);
      PathFree(id);
      ReadBack(DtmfPath(id), ps);
      PlainSegment(id);
    } else {
      Misread(id, Join(ps));
      assert (Root() + [Some(id), Some("dtmf")])[3] == Some(id);
    }
  }

  // An id that is a segment of the path is decoded.
  lemma IdIsDecoded(id: Bytes, dtmf: Bytes, between: int, duration: int, before: int, after: int)
    requires Free(id, '/') && Free(id, '?') && Free(id, '#') && !IsDot(id)
    ensures ReadUrl(SendDtmfUrl(id, dtmf, between, duration, before, after)).path
      == Root() + [ReadSegment(id), Some("dtmf")]
  {
    DtmfPrintable(dtmf, between, duration, before, after);
    DtmfUrl(id, dtmf, between, duration, before, after);
    PathFree(id);
    ReadBack(DtmfPath(id), DtmfFields(dtmf, between, duration, before, after));
    ReadDtmfPath(id);
  }

  // The channel "%41" is read as the channel "A".
  lemma SendDtmfMisread()
    ensures ReadUrl(SendDtmfUrl("%41", "1", -1, -1, -1, -1)).path == Root() + [Some("A"), Some("dtmf")]
  {
    ReadsAsA();
    hide ReadSegment, ReadUrl, SendDtmfUrl;
    IdIsDecoded("%41", "1", -1, -1, -1, -1);
  }

  lemma ReadsAsA()
    ensures ReadSegment("%41") == Some("A")
  {
    var t := "%41";
    assert t[3..] == "" && HexValue(t[1]) == Some(4) && HexValue(t[2]) == Some(1);
    assert (4 * 16 + 1) as char == 'A' && ['A'] + "" == "A";
    assert t[0] == '%' && SegmentChar(t[1]) && SegmentChar(t[2]);
    assert forall i :: 0 <= i < |t| ==> SegmentChar(t[i]) || t[i] == '%';
  }

  lemma SplitDtmfPath(id: string)
    requires Free(id, '/')
    ensures Split(DtmfPath(id), '/') == ["", "ari", "channels", id, "dtmf"]
  {
    SplitFree(id, '/');
    SplitLast(id, "dtmf", '/');
    SplitRoot(id + ['/'] + "dtmf");
    hide Split;
    DtmfPathText(id);
  }

  lemma DtmfPathText(id: string)
    ensures DtmfPath(id) == START + (id + ['/'] + "dtmf")
  {
  }

  lemma ReadDtmfPath(id: string)
    requires Free(id, '/') && !IsDot(id)
    ensures ReadPath(DtmfPath(id)) == Root() + [ReadSegment(id), Some("dtmf")]
  {
    SplitDtmfPath(id);
    FiveSegments(DtmfPath(id), id);
  }

  lemma FiveSegments(p: string, id: string)
    requires Split(p, '/') == ["", "ari", "channels", id, "dtmf"] && !IsDot(id)
    ensures ReadPath(p) == Root() + [ReadSegment(id), Some("dtmf")]
  {
    hide Split, Resolved, RemoveDots, IsName, IsDot, ReadSegment;
    NamesAreNames();
    NoDots(["", "ari", "channels", id, "dtmf"]);
    ReadName("");
    ReadName("ari");
    ReadName("channels");
    ReadName("dtmf");
  }

  lemma ReadName(s: string)
    requires IsName(s)
    ensures ReadSegment(s) == Some(s)
  {
    DecodePlain(s);
  }

  lemma PlainSegment(id: string)
    requires IsSegment(id)
    ensures ReadSegment(id) == Some(id)
  {
    DecodeShortens(id);
  }

  // ---- an id that is not a segment ----

  // Decoding keeps a text as it is or makes it shorter.
  lemma {:induction false} DecodeShortens(t: string)
    ensures Free(t, '%') ==> PercentDecode(t) == Some(t)
    ensures !Free(t, '%') && PercentDecode(t).Some? ==> |PercentDecode(t).value| < |t|
  {
    if t != "" {
      if t[0] != '%' {
        DecodeShortens(t[1..]);
        assert [t[0]] + t[1..] == t;
      } else if |t| >= 3 {
        DecodeShortens(t[3..]);
      }
    }
  }

  // What is read as a text that is no segment is longer than this text, or a dot segment.
  lemma LongerPiece(id: string, x: string)
    requires !IsSegment(id) && ReadSegment(x) == Some(id) && !IsDot(x)
    ensures |x| > |id|
  {
    DecodeShortens(x);
  }

  // The path that is left of the URL ends within the id or after it.
  lemma PathLeft(id: string, query: string) returns (rest: string)
    ensures PathOf(DtmfPath(id) + "?" + query) == START + rest
    ensures if Free(id, '?') && Free(id, '#') then rest == id + "/dtmf" else |rest| < |id|
  {
    var x := id + "/dtmf";
    assert DtmfPath(id) == START + x;
    rest := PathAfter(START, x, query);
    if exists i :: 0 <= i < |id| && (id[i] == '?' || id[i] == '#') {
      var i :| 0 <= i < |id| && (id[i] == '?' || id[i] == '#');
      assert x[i] == id[i];
      if |rest| > i { assert rest[i] == x[i]; }
    } else {
      assert Free(x, '?') && Free(x, '#');
    }
  }

  // The part of x before its first question mark or number sign.
  lemma PathAfter(start: string, x: string, query: string) returns (rest: string)
    requires Free(start, '?') && Free(start, '#')
    ensures PathOf(start + x + "?" + query) == start + rest
    ensures |rest| <= |x| && rest == x[..|rest|] && Free(rest, '?') && Free(rest, '#')
    ensures |rest| < |x| ==> x[|rest|] == '?' || x[|rest|] == '#'
  {
    hide PathOf;
    var u := start + x + "?" + query;
    var p := PathOf(u);
    var n := |start|;
    assert forall j :: 0 <= j < n ==> u[j] == start[j];
    assert forall j :: 0 <= j < |x| ==> u[n + j] == x[j];
    assert u[n + |x|] == '?';
    assert forall j :: 0 <= j < |p| ==> u[j] != '?';
    rest := p[n..];
    assert p == start + rest;
    assert forall j :: 0 <= j < |rest| ==> rest[j] == p[n + j] == u[n + j] == x[j];
  }

  // Every piece of that path is a constant or no longer than the id.
  lemma ShortPieces(id: string, rest: string, x: string)
    requires if Free(id, '?') && Free(id, '#') then rest == id + "/dtmf" else |rest| < |id|
    requires x in Split(START + rest, '/')
    ensures x in ["", "ari", "channels", "dtmf"] || |x| <= |id|
  {
    SplitRoot(rest);
    hide Split;
    if x in Split(rest, '/') {
      if Free(id, '?') && Free(id, '#') {
        SplitLast(id, "dtmf", '/');
        assert id + ['/'] + "dtmf" == rest;
        if x in Split(id, '/') { PieceLength(id, '/', x); }
      } else {
        PieceLength(rest, '/', x);
      }
    }
  }

  lemma Misread(id: string, query: string)
    requires !IsSegment(id)
    ensures Some(id) !in ReadUrl(DtmfPath(id) + "?" + query).path
  {
    var rest := PathLeft(id, query);
    var pieces := Split(START + rest, '/');
    forall x | x in RemoveDots(pieces)
      ensures ReadSegment(x) != Some(id)
    {
      if x in Resolved(pieces) { ResolvedAmong(pieces, x); }
      if x in pieces { ShortPieces(id, rest, x); }
      NotRead(id, x);
    }
  }

  lemma NotRead(id: string, x: string)
    requires !IsSegment(id) && !IsDot(x)
    requires x in ["", "ari", "channels", "dtmf"] || |x| <= |id|
    ensures ReadSegment(x) != Some(id)
  {
    NamesAreNames();
    if x in ["", "ari", "channels", "dtmf"] { ReadName(x); }
    if ReadSegment(x) == Some(id) { LongerPiece(id, x); }
  }

  lemma AddOptional(path: string, ps: seq<Printed>, url: string, name: string, n: int)
    requires ps != [] && url == path + "?" + Join(ps)
    ensures url + Optional(name, n) == path + "?" + Join(ps + OptionalField(name, n))
  {
    JoinOptional(ps, name, n);
    var o := Optional(name, n);
    assert (path + "?" + Join(ps)) + o == path + "?" + (Join(ps) + o);
  }

  lemma DtmfStart(id: Bytes, dtmf: Bytes)
    ensures "/ari/channels/" + id + "/dtmf?" + "dtmf=" + UrlEncode(dtmf)
      == DtmfPath(id) + "?" + Join([Printed("dtmf", UrlEncode(dtmf))])
  {
    assert "/ari/channels/" + id + "/dtmf?" == DtmfPath(id) + "?";
    assert Join([Printed("dtmf", UrlEncode(dtmf))]) == "dtmf" + "=" + UrlEncode(dtmf) == "dtmf=" + UrlEncode(dtmf);
  }

  lemma DtmfUrl(id: Bytes, dtmf: Bytes, between: int, duration: int, before: int, after: int)
    ensures SendDtmfUrl(id, dtmf, between, duration, before, after)
      == DtmfPath(id) + "?" + Join(DtmfFields(dtmf, between, duration, before, after))
  {
    var path := DtmfPath(id);
    var f0 := [Printed("dtmf", UrlEncode(dtmf))];
    var u0 := "/ari/channels/" + id + "/dtmf?" + "dtmf=" + UrlEncode(dtmf);
    DtmfStart(id, dtmf);
    var f1, u1 := f0 + OptionalField("between", between), u0 + Optional("between", between);
    AddOptional(path, f0, u0, "between", between);
    var f2, u2 := f1 + OptionalField("duration", duration), u1 + Optional("duration", duration);
    AddOptional(path, f1, u1, "duration", duration);
    AddOptional(path, f2, u2, "before", before);
    AddOptional(path, f2 + OptionalField("before", before), u2 + Optional("before", before), "after", after);
  }

  lemma PathFree(id: string)
    requires Free(id, '?') && Free(id, '#')
    ensures Free(DtmfPath(id), '?') && Free(DtmfPath(id), '#')
  {
  }
}
