/** The serialized kubeconfig document. The model fixes one deterministic
    layout, shaped like a kubeconfig file: a cluster with the server URL and
    either the skip-verify flag or the CA bundle, a user with the bearer
    token, and a context binding them. Every variable part is written as a
    double-quoted scalar with `"` and `\` escaped, so the document can be
    read back: `Parse` inverts `Serialize`. */
module KubeconfigFormat {
  import opened Wrappers
  import opened Bytes

  /** How the plugin trusts the API server. */
  datatype Trust = SkipVerify | CaData(ca: Bytes)

  /** The content of a kubeconfig document. */
  datatype Document = Document(server: Bytes, trust: Trust, token: Bytes)

  const Quote: byte := 34
  const Backslash: byte := 92

  const Head: Bytes := Ascii("apiVersion: v1\nkind: Config\nclusters:\n- name: local\n  cluster:\n    server: ")
  const SkipStanza: Bytes := Ascii("\n    insecure-skip-tls-verify: true\n")
  const CaKey: Bytes := Ascii("\n    certificate-authority-data: ")
  const CaEnd: Bytes := Ascii("\n")
  const UserHead: Bytes := Ascii("users:\n- name: istio-cni\n  user:\n    token: ")
  const Tail: Bytes := Ascii("\ncontexts:\n- name: istio-cni-context\n  context:\n    cluster: local\n    user: istio-cni\ncurrent-context: istio-cni-context\n")

  /** `s` with a backslash before every quote and backslash. */
  function Escape(s: Bytes): Bytes
    decreases |s|
  {
    if s == [] then []
    else (if s[0] == Quote || s[0] == Backslash then [Backslash, s[0]] else [s[0]]) + Escape(s[1..])
  }

  /** `s` as a double-quoted scalar. */
  function Quoted(s: Bytes): Bytes
  {
    [Quote] + Escape(s) + [Quote]
  }

  /** Reads escaped bytes up to the closing quote; returns the unescaped
      bytes and what follows the quote. */
  function ReadEscaped(b: Bytes): Option<(Bytes, Bytes)>
    decreases |b|
  {
    if b == [] then None
    else if b[0] == Quote then Some(([], b[1..]))
    else if b[0] == Backslash then
      if |b| < 2 then None
      else match ReadEscaped(b[2..])
        case None => None
        case Some((s, r)) => Some(([b[1]] + s, r))
    else match ReadEscaped(b[1..])
      case None => None
      case Some((s, r)) => Some(([b[0]] + s, r))
  }

  /** Reads one double-quoted scalar from the front of `b`. */
  function ReadQuoted(b: Bytes): Option<(Bytes, Bytes)>
  {
    if b != [] && b[0] == Quote then ReadEscaped(b[1..]) else None
  }

  /** The cluster's trust stanza. */
  function TrustStanza(t: Trust): Bytes
  {
    match t
    case SkipVerify => SkipStanza
    case CaData(ca) => CaKey + Quoted(ca) + CaEnd
  }

  /** The full document: the cluster header and the quoted server URL come
      first, the quoted token and the context stanza last. */
  function Serialize(d: Document): (b: Bytes)
    ensures StartsWith(b, Head + Quoted(d.server))
    ensures |Quoted(d.token) + Tail| <= |b| && b[|b| - |Quoted(d.token) + Tail|..] == Quoted(d.token) + Tail
  {
    var front, back := Head + Quoted(d.server), Quoted(d.token) + Tail;
    var middle := TrustStanza(d.trust) + UserHead;
    Assoc(front + TrustStanza(d.trust) + UserHead, Quoted(d.token), Tail);
    Assoc(front, TrustStanza(d.trust), UserHead);
    Assoc(front, middle, back);
    DropFront(front, middle + back);
    DropEnd(front + middle, back);
    Head + Quoted(d.server) + TrustStanza(d.trust) + UserHead + Quoted(d.token) + Tail
  }

  /** Reads a trust stanza from the front of `b`. */
  function ParseTrust(b: Bytes): Option<(Trust, Bytes)>
  {
    if StartsWith(b, SkipStanza) then Some((SkipVerify, b[|SkipStanza|..]))
    else if StartsWith(b, CaKey) then
      match ReadQuoted(b[|CaKey|..])
      case None => None
      case Some((ca, r)) =>
        if StartsWith(r, CaEnd) then Some((CaData(ca), r[|CaEnd|..])) else None
    else None
  }

  /** Reads a whole document; `None` when `b` is not one. */
  function Parse(b: Bytes): Option<Document>
  {
    if !StartsWith(b, Head) then None
    else match ReadQuoted(b[|Head|..])
      case None => None
      case Some((server, r1)) =>
        match ParseTrust(r1)
        case None => None
        case Some((trust, r2)) =>
          if !StartsWith(r2, UserHead) then None
          else match ReadQuoted(r2[|UserHead|..])
            case None => None
            case Some((token, r3)) => if r3 == Tail then Some(Document(server, trust, token)) else None
  }

  /** A sequence starts with its left operand, and dropping it leaves the
      right one. */
  lemma DropFront(a: Bytes, b: Bytes)
    ensures StartsWith(a + b, a) && (a + b)[|a|..] == b
  {
    assert (a + b)[..|a|] == a;
  }

  /** Dropping all but the right operand leaves it. */
  lemma DropEnd(a: Bytes, b: Bytes)
    ensures (a + b)[|a + b| - |b|..] == b
  {
  }

  /** Reading back escaped bytes stops at the closing quote and recovers
      exactly the original bytes. */
  lemma {:induction false} ReadEscapedRoundTrip(s: Bytes, rest: Bytes)
    ensures ReadEscaped(Escape(s) + [Quote] + rest) == Some((s, rest))
    decreases |s|
  {
    var b := Escape(s) + [Quote] + rest;
    if s == [] {
      assert b == [Quote] + rest;
      assert b[1..] == rest;
    } else {
      var tail := Escape(s[1..]) + [Quote] + rest;
      ReadEscapedRoundTrip(s[1..], rest);
      if s[0] == Quote || s[0] == Backslash {
        assert b == [Backslash, s[0]] + tail;
        assert b[2..] == tail;
      } else {
        assert b == [s[0]] + tail;
        assert b[1..] == tail;
      }
      assert [s[0]] + s[1..] == s;
    }
  }

  /** A quoted scalar reads back as its contents, leaving what follows. */
  lemma ReadQuotedRoundTrip(s: Bytes, rest: Bytes)
    ensures ReadQuoted(Quoted(s) + rest) == Some((s, rest))
  {
    var b := Quoted(s) + rest;
    assert b == [Quote] + (Escape(s) + [Quote] + rest);
    assert b[1..] == Escape(s) + [Quote] + rest;
    ReadEscapedRoundTrip(s, rest);
  }

  /** A trust stanza reads back as itself, leaving what follows. */
  lemma ParseTrustRoundTrip(t: Trust, rest: Bytes)
    ensures ParseTrust(TrustStanza(t) + rest) == Some((t, rest))
  {
    match t
    case SkipVerify =>
      DropFront(SkipStanza, rest);
    case CaData(ca) =>
      ParseCaRoundTrip(ca, rest);
  }

  /** A CA stanza reads back as the same CA bundle, leaving what follows. */
  lemma ParseCaRoundTrip(ca: Bytes, rest: Bytes)
    ensures ParseTrust(CaKey + Quoted(ca) + CaEnd + rest) == Some((CaData(ca), rest))
  {
    var after := Quoted(ca) + (CaEnd + rest);
    assert CaKey + Quoted(ca) + CaEnd + rest == CaKey + after;
    CaStanzaNotSkip(after);
    DropFront(CaKey, after);
    ReadQuotedRoundTrip(ca, CaEnd + rest);
    DropFront(CaEnd, rest);
  }

  /** A CA stanza is never read as the skip-verify stanza: the two differ
      in their sixth byte. */
  lemma CaStanzaNotSkip(after: Bytes)
    ensures !StartsWith(CaKey + after, SkipStanza)
  {
    assert (CaKey + after)[5] == CaKey[5];
    assert CaKey[5] as int == 99 && SkipStanza[5] as int == 105;
  }

  lemma Assoc(a: Bytes, b: Bytes, c: Bytes)
    ensures a + b + c == a + (b + c)
  {
  }

  /** The document, associated to the right for reading front to back. */
  lemma SerializeShape(d: Document)
    ensures Serialize(d)
         == Head + (Quoted(d.server) + (TrustStanza(d.trust) + (UserHead + (Quoted(d.token) + Tail))))
  {
    var h, q1, t, u, q2 := Head, Quoted(d.server), TrustStanza(d.trust), UserHead, Quoted(d.token);
    Assoc(h + q1 + t + u, q2, Tail);
    Assoc(h + q1 + t, u, q2 + Tail);
    Assoc(h + q1, t, u + (q2 + Tail));
    Assoc(h, q1, t + (u + (q2 + Tail)));
  }

  /** Parsing inverts serialization. */
  lemma ParseSerialize(d: Document)
    ensures Parse(Serialize(d)) == Some(d)
  {
    var r3 := Tail;
    var r2 := UserHead + (Quoted(d.token) + r3);
    var r1 := TrustStanza(d.trust) + r2;
    var b := Serialize(d);
    SerializeShape(d);
    assert b == Head + (Quoted(d.server) + r1);
    DropFront(Head, Quoted(d.server) + r1);
    ReadQuotedRoundTrip(d.server, r1);
    ParseTrustRoundTrip(d.trust, r2);
    DropFront(UserHead, Quoted(d.token) + r3);
    ReadQuotedRoundTrip(d.token, r3);
  }

  /** Different documents serialize to different bytes, so comparing
      serialized bytes compares documents. */
  lemma SerializeInjective(d1: Document, d2: Document)
    ensures Serialize(d1) == Serialize(d2) <==> d1 == d2
  {
    ParseSerialize(d1);
    ParseSerialize(d2);
  }
}
