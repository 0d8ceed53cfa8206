/** The MIME type constants and the preset-to-MIME mapping used for the outgoing `Content-Type`. */
module BodyTypes {

  /** The presets a request can declare for its body. */
  datatype BodyTypePresets = RawData | Text | JSON | XML | HTML

  const RawDataMime: string := "application/octet-stream"
  const TextMime: string := "text/plain"
  const JsonMime: string := "application/json"
  const XmlMime: string := "application/xml"
  const XmlTextMime: string := "text/xml"
  const HtmlMime: string := "text/html"

  /** The MIME type sent for a preset. `text/xml` is recognised in responses
      but never produced here; every preset other than the four named ones
      (that is, `RawData`) falls back to `application/octet-stream`. */
  function GetMimeType(contentType: BodyTypePresets): (m: string)
    ensures contentType == Text ==> m == TextMime
    ensures contentType == JSON ==> m == JsonMime
    ensures contentType == XML ==> m == XmlMime
    ensures contentType == HTML ==> m == HtmlMime
    ensures m != XmlTextMime
    ensures m == RawDataMime <==> contentType == RawData
    ensures m in {RawDataMime, TextMime, JsonMime, XmlMime, HtmlMime}
  {
    match contentType
    case Text => TextMime
    case JSON => JsonMime
    case XML => XmlMime
    case HTML => HtmlMime
    case _ => RawDataMime
  }

  /** Distinct presets are announced with distinct MIME types. */
  lemma GetMimeTypeInjective(p: BodyTypePresets, q: BodyTypePresets)
    requires GetMimeType(p) == GetMimeType(q)
    ensures p == q
  {
  }

  /** Only `Text` and `HTML` are announced as `text/` types; the others are
      `application/` types. */
  lemma MimeFamilies(p: BodyTypePresets)
    ensures "text/" <= GetMimeType(p) <==> p == Text || p == HTML
    ensures "application/" <= GetMimeType(p) <==> p == RawData || p == JSON || p == XML
  {
    var m := GetMimeType(p);
    if p == Text || p == HTML {
      assert m[..5] == "text/";
      assert m[0] != "application/"[0];
    } else {
      assert m[..12] == "application/";
      assert m[0] != "text/"[0];
    }
  }
}
