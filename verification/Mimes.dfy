/** MIME sniffing and the MIME allowlist (crates/porxie-mediautil/src/mime.rs). */
module Mimes {
  import opened Wrappers
  import opened BlobCids

  /** A parsed media type: `image/svg+xml` has subtype `svg` and suffix `xml`. */
  datatype Mime = Mime(kind: string, subtype: string, suffix: Option<string>, params: string)

  const STAR: string := "*"
  const OCTET_STREAM: Mime := Mime("application", "octet-stream", None, "")
  const IMAGE_SVG: Mime := Mime("image", "svg", Some("xml"), "")

  const SVG_MARKER: Bytes := [0x3c, 0x73, 0x76, 0x67] // "<svg"
  const XML_MARKER: Bytes := [0x3c, 0x3f, 0x78, 0x6d, 0x6c] // "<?xml"
  const XML_SNIFFAHEAD: nat := 256

  /** Type inference from magic bytes; any table of signatures will do. */
  type Inference = Bytes -> Option<Mime>

  /** All contiguous windows of `n` bytes, in order. */
  function Windows(s: Bytes, n: nat): seq<Bytes>
    requires n > 0
  {
    if |s| < n then [] else [s[..n]] + Windows(s[1..], n)
  }

  lemma {:induction false} WindowsAreSlices(s: Bytes, n: nat)
    requires n > 0
    ensures |Windows(s, n)| == if |s| < n then 0 else |s| - n + 1
    ensures forall i :: 0 <= i < |Windows(s, n)| ==> Windows(s, n)[i] == s[i..i + n]
  {
    if |s| >= n {
      WindowsAreSlices(s[1..], n);
      forall i | 0 <= i < |Windows(s, n)|
        ensures Windows(s, n)[i] == s[i..i + n]
      {
        if i > 0 {
          assert Windows(s, n)[i] == Windows(s[1..], n)[i - 1] == s[1..][i - 1..i - 1 + n];
          assert s[1..][i - 1..i - 1 + n] == s[i..i + n];
        }
      }
    }
  }

  function Prefix(s: Bytes, n: nat): Bytes {
    if n <= |s| then s[..n] else s
  }

  /** The workaround for SVG, used when inference recognises nothing. */
  predicate LooksLikeSvg(buf: Bytes) {
    || (|buf| >= 4 && SVG_MARKER <= buf)
    || (XML_MARKER <= buf && SVG_MARKER in Windows(Prefix(buf, XML_SNIFFAHEAD), |SVG_MARKER|))
  }

  function SniffMime(infer: Inference, buf: Bytes): Mime {
    match infer(buf)
    case Some(m) => m
    case None => if LooksLikeSvg(buf) then IMAGE_SVG else OCTET_STREAM
  }

  predicate MarkerAt(buf: Bytes, i: nat) {
    i + 4 <= |buf| && buf[i..i + 4] == SVG_MARKER
  }

  lemma MarkerInWindows(buf: Bytes)
    ensures SVG_MARKER in Windows(Prefix(buf, XML_SNIFFAHEAD), |SVG_MARKER|)
            <==> exists i: nat :: i + 4 <= XML_SNIFFAHEAD && MarkerAt(buf, i)
  {
    var p := Prefix(buf, XML_SNIFFAHEAD);
    var w := Windows(p, |SVG_MARKER|);
    WindowsAreSlices(p, |SVG_MARKER|);
    forall i: nat | i + 4 <= |p|
      ensures w[i] == buf[i..i + 4]
    {
      assert p[i..i + 4] == buf[i..i + 4];
    }
    if SVG_MARKER in w {
      var i: nat :| i < |w| && w[i] == SVG_MARKER;
      assert MarkerAt(buf, i);
    }
    if i: nat :| i + 4 <= XML_SNIFFAHEAD && MarkerAt(buf, i) {
      assert w[i] == SVG_MARKER;
    }
  }

  /** The window search in positions: the marker starts the buffer, or the buffer starts with the XML
      marker and the SVG marker lies wholly inside its first min(len, 256) bytes. */
  lemma LooksLikeSvgIff(buf: Bytes)
    ensures LooksLikeSvg(buf) <==>
            || SVG_MARKER <= buf
            || (XML_MARKER <= buf && exists i: nat :: i + 4 <= XML_SNIFFAHEAD && MarkerAt(buf, i))
  {
    MarkerInWindows(buf);
  }

  /** The fallback verdict looks at the first 256 bytes only. */
  lemma SvgVerdictNeedsOnlyPrefix(a: Bytes, b: Bytes)
    requires Prefix(a, XML_SNIFFAHEAD) == Prefix(b, XML_SNIFFAHEAD)
    ensures LooksLikeSvg(a) == LooksLikeSvg(b)
  {
    var p := Prefix(a, XML_SNIFFAHEAD);
    assert forall m: Bytes | |m| <= 5 :: (m <= a <==> m <= p) && (m <= b <==> m <= p);
  }

  /** One allowlist entry admits a media type. */
  predicate Admits(entry: Mime, mime: Mime) {
    || (entry.kind == STAR && entry.subtype == STAR)
    || (entry.subtype == STAR && entry.kind == mime.kind)
    || mime == entry
  }

  predicate AllowedBy(mime: Mime, allowed: seq<Mime>) {
    exists entry :: entry in allowed && Admits(entry, mime)
  }

  /** The allowlist loop, with its early returns, decides the existential. */
  method IsMimeAllowed(mime: Mime, allowed: seq<Mime>) returns (ok: bool)
    ensures ok <==> AllowedBy(mime, allowed)
  {
    if |allowed| == 0 {
      return false;
    }
    for i := 0 to |allowed|
      invariant forall j :: 0 <= j < i ==> !Admits(allowed[j], mime)
    {
      var entry := allowed[i];
      assert entry in allowed;
      if entry.kind == STAR && entry.subtype == STAR {
        return true;
      }
      if entry.subtype == STAR && entry.kind == mime.kind {
        return true;
      }
      if mime == entry {
        return true;
      }
    }
    return false;
  }

  /** The verdict ignores order and repetition, and a longer list never forbids more. */
  lemma AllowlistIsASet(mime: Mime, fewer: seq<Mime>, more: seq<Mime>)
    requires forall entry :: entry in fewer ==> entry in more
    ensures AllowedBy(mime, fewer) ==> AllowedBy(mime, more)
    ensures multiset(fewer) == multiset(more) ==> AllowedBy(mime, fewer) == AllowedBy(mime, more)
  {
    if multiset(fewer) == multiset(more) && AllowedBy(mime, more) {
      var entry :| entry in more && Admits(entry, mime);
      assert entry in multiset(more);
      assert entry in fewer;
    }
  }
}
