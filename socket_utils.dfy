/** The client address the server records for a socket (server/socket-utils.ts): the first
    address, among the proxy headers of the handshake, that is a valid IP address, and the
    address of the connection itself when none is. The IP syntax check (`isIP`) and the
    parser of the Forwarded header (`forwarded-parse`) are not part of this model; both are
    parameters. */
module SocketUtils {
  import opened Types

  /** A header of the handshake: absent, one text, or (for a repeated header) a list. */
  datatype HeaderValue = Single(text: string) | Multiple(texts: seq<string>)

  /** The three headers read, and `socket.handshake.address`. */
  datatype Handshake = Handshake(xForwardedFor: Option<HeaderValue>,
                                 forwarded: Option<HeaderValue>,
                                 cfConnectingIp: Option<HeaderValue>,
                                 address: string)

  /** One element of a parsed Forwarded header, reduced to its `for` parameter. */
  datatype ForwardedElement = ForwardedElement(forParameter: Option<string>)

  /** What `forwardedParse` does with a header value: throws, or gives the elements. */
  datatype ParseOutcome = Throws | Parsed(elements: seq<ForwardedElement>)

  type IpCheck = string -> bool
  type ForwardedParser = HeaderValue -> ParseOutcome

  /** `checkedIp(ip)`: the candidate when it is a non-empty valid address, else nothing. */
  function CheckedIp(isIp: IpCheck, ip: Option<string>): (r: Option<string>)
    ensures r.Some? <==> ip.Some? && ip.value != "" && isIp(ip.value)
    ensures r.Some? ==> r == ip
  {
    if ip.Some? && ip.value != "" && isIp(ip.value) then ip else None
  }

  // ---------------------------------------------------------------- trim

  /** The characters `String.prototype.trim` removes: the white space and line terminators
      of ECMAScript. */
  predicate IsJsSpace(c: char) {
    || c == ' ' || c == '\t' || c == '\n' || c == '\r' || c == '\U{000B}' || c == '\U{000C}'
    || c == '\U{00A0}' || c == '\U{1680}' || ('\U{2000}' <= c <= '\U{200A}')
    || c == '\U{2028}' || c == '\U{2029}' || c == '\U{202F}' || c == '\U{205F}'
    || c == '\U{3000}' || c == '\U{FEFF}'
  }

  /** The white space at the start of s, as a count. */
  function LeadingSpace(s: string): (n: nat)
    ensures n <= |s|
    ensures forall k :: 0 <= k < n ==> IsJsSpace(s[k])
    ensures n < |s| ==> !IsJsSpace(s[n])
  {
    if |s| == 0 || !IsJsSpace(s[0]) then 0 else 1 + LeadingSpace(s[1..])
  }

  /** The white space at the end of s, as a count. */
  function TrailingSpace(s: string): (n: nat)
    ensures n <= |s|
    ensures forall k :: |s| - n <= k < |s| ==> IsJsSpace(s[k])
    ensures n < |s| ==> !IsJsSpace(s[|s| - n - 1])
  {
    if |s| == 0 || !IsJsSpace(s[|s| - 1]) then 0 else 1 + TrailingSpace(s[..|s| - 1])
  }

  /** `s.trim()`: the part of s between its leading and its trailing white space. */
  function Trim(s: string): (r: string)
    ensures exists i, j :: && 0 <= i <= j <= |s| && r == s[i..j]
                           && (forall k :: 0 <= k < i ==> IsJsSpace(s[k]))
                           && (forall k :: j <= k < |s| ==> IsJsSpace(s[k]))
    ensures r == [] || (!IsJsSpace(r[0]) && !IsJsSpace(r[|r| - 1]))
  {
    var i := LeadingSpace(s);
    var rest := s[i..];
    var t := TrailingSpace(rest);
    assert rest[..|rest| - t] == s[i..i + |rest| - t];
    rest[..|rest| - t]
  }

  /** Nothing is left of a text of white space alone. */
  lemma TrimAllSpace(s: string)
    requires forall k :: 0 <= k < |s| ==> IsJsSpace(s[k])
    ensures Trim(s) == []
  {
    assert LeadingSpace(s) == |s|;
  }

  /** A text with no white space at either end is its own trim. */
  lemma TrimUnpadded(s: string)
    requires s == [] || (!IsJsSpace(s[0]) && !IsJsSpace(s[|s| - 1]))
    ensures Trim(s) == s
  {
    assert LeadingSpace(s) == 0;
    assert s[0..] == s;
  }

  /** Trimming twice is trimming once. */
  lemma TrimIdempotent(s: string)
    ensures Trim(Trim(s)) == Trim(s)
  {
    TrimUnpadded(Trim(s));
  }

  // ---------------------------------------------------------------- the candidates

  /** `[header ?? []].flat()`: the header's texts, none when it is absent. */
  function HeaderTexts(h: Option<HeaderValue>): (texts: seq<string>)
    ensures h.None? ==> texts == []
    ensures h.Some? && h.value.Single? ==> texts == [h.value.text]
    ensures h.Some? && h.value.Multiple? ==> texts == h.value.texts
  {
    match h
    case None => []
    case Some(Single(text)) => [text]
    case Some(Multiple(texts)) => texts
  }

  /** The candidate a text of X-Forwarded-For gives: its first comma-separated field,
      trimmed. */
  function ForwardedForField(text: string): string {
    Trim(FirstField(text, ','))
  }

  /** The place of the first non-empty text from `from` on. */
  function FirstNonEmptyFrom(texts: seq<string>, from: nat): (r: Option<nat>)
    requires from <= |texts|
    ensures r.Some? ==> from <= r.value < |texts| && texts[r.value] != ""
    ensures forall j :: from <= j < |texts| && (r.None? || j < r.value) ==> texts[j] == ""
    decreases |texts| - from
  {
    if from == |texts| then None
    else if texts[from] != "" then Some(from)
    else FirstNonEmptyFrom(texts, from + 1)
  }

  /** `.map(...)` over the texts: the candidate of each. */
  function ForwardedForFields(texts: seq<string>): (fields: seq<string>)
    ensures |fields| == |texts|
    ensures forall i :: 0 <= i < |texts| ==> fields[i] == ForwardedForField(texts[i])
  {
    seq(|texts|, i requires 0 <= i < |texts| => ForwardedForField(texts[i]))
  }

  /** `.filter(Boolean)[0]` over the candidates: the first one that is not empty. */
  function FirstNonEmptyField(texts: seq<string>): Option<string> {
    var fields := ForwardedForFields(texts);
    var k := FirstNonEmptyFrom(fields, 0);
    if k.Some? then Some(fields[k.value]) else None
  }

  /** `getXForwardedFor(socket)`. */
  function XForwardedFor(hs: Handshake): Option<string> {
    FirstNonEmptyField(HeaderTexts(hs.xForwardedFor))
  }

  /** The X-Forwarded-For candidate is the non-empty candidate of one of the header's
      texts, every earlier text giving an empty one; and there is none exactly when every
      text gives an empty one. */
  lemma XForwardedForFirst(hs: Handshake)
    ensures var texts, x := HeaderTexts(hs.xForwardedFor), XForwardedFor(hs);
      && (x.None? <==> forall i :: 0 <= i < |texts| ==> ForwardedForField(texts[i]) == "")
      && (x.Some? ==> exists i :: && 0 <= i < |texts| && x.value == ForwardedForField(texts[i])
                                  && x.value != ""
                                  && forall j :: 0 <= j < i ==> ForwardedForField(texts[j]) == "")
  {
    var texts := HeaderTexts(hs.xForwardedFor);
    var fields := ForwardedForFields(texts);
    var k := FirstNonEmptyFrom(fields, 0);
    if k.Some? {
      assert fields[k.value] != "";
    }
  }

  /** A client that put its address, without white space or a comma, before the first
      comma of the header (or as the whole header) is the candidate found, leading and
      trailing blanks aside. */
  lemma ForwardedForFirstHop(pad: string, client: string, rest: string)
    requires forall k :: 0 <= k < |pad| ==> IsJsSpace(pad[k])
    requires client != [] && ',' !in pad + client
    requires !IsJsSpace(client[0]) && !IsJsSpace(client[|client| - 1])
    requires rest == [] || rest[0] == ','
    ensures ForwardedForField(pad + client + rest) == client
  {
    var t := pad + client;
    FirstFieldOfSepFree(t, rest, ',');
    LeadingSpaceSkips(pad, client);
    assert t[|pad|..] == client;
    assert TrailingSpace(client) == 0;
    assert client[..|client|] == client;
  }

  /** Leading white space followed by a text that starts with something else. */
  lemma {:induction false} LeadingSpaceSkips(pad: string, s: string)
    requires forall k :: 0 <= k < |pad| ==> IsJsSpace(pad[k])
    requires s != [] && !IsJsSpace(s[0])
    ensures LeadingSpace(pad + s) == |pad|
  {
    if |pad| > 0 {
      assert (pad + s)[1..] == pad[1..] + s;
      LeadingSpaceSkips(pad[1..], s);
    }
  }

  /** The header's value is one a JavaScript test takes as true: present, and not the empty
      text (a list, even an empty one, is true). */
  predicate Truthy(h: Option<HeaderValue>) {
    h.Some? && !(h.value.Single? && h.value.text == "")
  }

  /** `getForwarded(socket)`: the `for` of the first element the parser gives for a true
      header; nothing when the header is false, when the parser throws, or when it gives no
      element. */
  function Forwarded(parse: ForwardedParser, hs: Handshake): (r: Option<string>)
    ensures !Truthy(hs.forwarded) ==> r.None?
    ensures Truthy(hs.forwarded) && parse(hs.forwarded.value).Throws? ==> r.None?
    ensures Truthy(hs.forwarded) && parse(hs.forwarded.value).Parsed? ==>
      var elements := parse(hs.forwarded.value).elements;
      r == if |elements| == 0 then None else elements[0].forParameter
  {
    if !Truthy(hs.forwarded) then None
    else
      match parse(hs.forwarded.value)
      case Throws => None
      case Parsed(elements) => if |elements| == 0 then None else elements[0].forParameter
  }

  /** `headers["cf-connecting-ip"]?.[0]` as written: for a single text, whose element 0 is
      its first character, only that character. */
  function CloudflareAsWritten(hs: Handshake): (r: Option<string>)
    ensures hs.cfConnectingIp.Some? && hs.cfConnectingIp.value.Single? ==>
      var text := hs.cfConnectingIp.value.text;
      && (r.None? <==> text == "")
      && (r.Some? ==> |r.value| == 1 && r.value <= text)
  {
    match hs.cfConnectingIp
    case None => None
    case Some(Single(text)) => if |text| == 0 then None else Some(text[..1])
    case Some(Multiple(texts)) => if |texts| == 0 then None else Some(texts[0])
  }

  /** The Cloudflare header as intended: the address the header carries, the first one of
      a repeated header. */
  function Cloudflare(hs: Handshake): (r: Option<string>)
    ensures hs.cfConnectingIp.Some? && hs.cfConnectingIp.value.Single? ==>
      r == Some(hs.cfConnectingIp.value.text)
    ensures r.Some? ==> r.value in HeaderTexts(hs.cfConnectingIp)
  {
    match hs.cfConnectingIp
    case None => None
    case Some(Single(text)) => Some(text)
    case Some(Multiple(texts)) =>
      if |texts| == 0 then None else assert texts[0] in texts; Some(texts[0])
  }

  // ---------------------------------------------------------------- getClientIp

  /** The `||` chain of `getClientIp` over three candidates and the fallback. */
  function FirstValid(isIp: IpCheck, a: Option<string>, b: Option<string>, c: Option<string>,
                      fallback: string): string
  {
    var ca, cb, cc := CheckedIp(isIp, a), CheckedIp(isIp, b), CheckedIp(isIp, c);
    if ca.Some? then ca.value else if cb.Some? then cb.value
    else if cc.Some? then cc.value else fallback
  }

  /** `getClientIp(socket)` with the Cloudflare header read as intended. */
  function ClientIp(isIp: IpCheck, parse: ForwardedParser, hs: Handshake): string {
    FirstValid(isIp, XForwardedFor(hs), Forwarded(parse, hs), Cloudflare(hs), hs.address)
  }

  /** `getClientIp(socket)` as written. */
  function ClientIpAsWritten(isIp: IpCheck, parse: ForwardedParser, hs: Handshake): string {
    FirstValid(isIp, XForwardedFor(hs), Forwarded(parse, hs), CloudflareAsWritten(hs),
               hs.address)
  }

  /** The fallback chain: the first candidate that is a valid address wins, in the order
      X-Forwarded-For, Forwarded, cf-connecting-ip; with none, the connection's address.
      So the result is always a valid address or the connection's own. */
  lemma ClientIpPrecedence(isIp: IpCheck, parse: ForwardedParser, hs: Handshake)
    ensures var x, f, c := XForwardedFor(hs), Forwarded(parse, hs), Cloudflare(hs);
      var ip := ClientIp(isIp, parse, hs);
      && (CheckedIp(isIp, x).Some? ==> ip == x.value)
      && (CheckedIp(isIp, x).None? && CheckedIp(isIp, f).Some? ==> ip == f.value)
      && (CheckedIp(isIp, x).None? && CheckedIp(isIp, f).None? && CheckedIp(isIp, c).Some? ==>
            ip == c.value)
      && (CheckedIp(isIp, x).None? && CheckedIp(isIp, f).None? && CheckedIp(isIp, c).None? ==>
            ip == hs.address)
      && (ip == hs.address || (ip != "" && isIp(ip)))
  {
  }

  /** As written, a single cf-connecting-ip text never yields an address: its first
      character alone is no valid address, so with no other valid header the result is the
      connection's address, whereas the corrected reading gives the header's address. */
  lemma CloudflareFirstCharacter(isIp: IpCheck, parse: ForwardedParser, hs: Handshake)
    requires forall c: char :: !isIp([c])
    requires hs.cfConnectingIp.Some? && hs.cfConnectingIp.value.Single?
    requires CheckedIp(isIp, XForwardedFor(hs)).None? && CheckedIp(isIp, Forwarded(parse, hs)).None?
    requires hs.cfConnectingIp.value.text != "" && isIp(hs.cfConnectingIp.value.text)
    ensures ClientIpAsWritten(isIp, parse, hs) == hs.address
    ensures ClientIp(isIp, parse, hs) == hs.cfConnectingIp.value.text
  {
    var text := hs.cfConnectingIp.value.text;
    if |text| > 0 {
      assert !isIp([text[0]]);
      assert text[..1] == [text[0]];
    }
  }
}
