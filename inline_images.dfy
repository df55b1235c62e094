/** Inline-image extraction: every `<img>` whose `src` is a base64 data URI
    of type png, jpeg, gif or webp is rewritten to a `cid:` reference, and
    its payload becomes an inline attachment appended to a copy of the job's
    static attachments. The HTML is taken as already split into tokens. */
module InlineImages {
  import opened JsText

  /** A piece of the email-safe body. `DataImage` is one match of the image
      pattern: `<img` + `lead` + `src="data:` + `mime` + `params` +
      `;base64,` + `data` + `"` + `trailing` + `>`, where `params` is the
      optional `;charset=…` and `;name=…` part. Anything else, including
      images with an ordinary `src`, is `Text`. */
  datatype Token =
    | Text(text: string)
    | DataImage(lead: string, mime: string, params: string, data: string, trailing: string)

  /** What the email carries besides its body: a file uploaded with the job,
      or an image part cut out of the body. */
  datatype Attachment =
    | FileAttachment(filename: string, path: string)
    | InlineAttachment(content: string, encoding: string, cid: string, contentType: string)

  /** The text a token stands for in the body before rewriting. */
  function Original(t: Token): string {
    match t
    case Text(s) => s
    case DataImage(lead, mime, params, data, trailing) =>
      "<img" + lead + "src=\"data:" + mime + params + ";base64," + data + "\"" + trailing + ">"
  }

  /** The body before rewriting. */
  function Source(tokens: seq<Token>): string {
    if tokens == [] then "" else Source(tokens[..|tokens| - 1]) + Original(tokens[|tokens| - 1])
  }

  /** `emb_<jobId>_<row>_<k>`: the content id of the `k`-th image of data
      row `row` (0-based) of a job. */
  function ContentId(jobId: string, row: nat, k: nat): string {
    "emb_" + (jobId + "_" + (NatToString(row) + "_" + NatToString(k)))
  }

  /** The attachment made for the `k`-th image of a row. */
  function ImagePart(t: Token, jobId: string, row: nat, k: nat): Attachment
    requires t.DataImage?
  {
    InlineAttachment(t.data, "base64", ContentId(jobId, row, k), t.mime)
  }

  /** The rewritten tag `<img src="cid:…"` + trailing attributes + `>`;
      whatever stood between `<img` and `src=` is dropped. */
  function CidTag(t: Token, cid: string): string
    requires t.DataImage?
  {
    "<img src=\"cid:" + cid + "\"" + t.trailing + ">"
  }

  datatype Extraction = Extraction(html: string, parts: seq<Attachment>)

  /** The rewritten body and the image parts of a token sequence, images
      numbered from 1 in document order. */
  function Extracted(tokens: seq<Token>, jobId: string, row: nat): Extraction {
    if tokens == [] then Extraction("", [])
    else
      var e := Extracted(tokens[..|tokens| - 1], jobId, row);
      var t := tokens[|tokens| - 1];
      if t.DataImage? then
        var cid := ContentId(jobId, row, |e.parts| + 1);
        Extraction(e.html + CidTag(t, cid), e.parts + [ImagePart(t, jobId, row, |e.parts| + 1)])
      else Extraction(e.html + Original(t), e.parts)
  }

  /** The data images of a body, in document order. */
  function Images(tokens: seq<Token>): (r: seq<Token>)
    ensures forall t :: t in r ==> t.DataImage?
  {
    if tokens == [] then []
    else Images(tokens[..|tokens| - 1]) + (if tokens[|tokens| - 1].DataImage? then [tokens[|tokens| - 1]] else [])
  }

  /** The replace callback loop: bumps the image counter and pushes one part
      per data image onto a copy of the static attachment list, rewriting
      each such image and copying every other token. */
  method ExtractImages(tokens: seq<Token>, jobId: string, row: nat, staticAttachments: seq<Attachment>)
    returns (html: string, attachments: seq<Attachment>)
    ensures html == Extracted(tokens, jobId, row).html
    ensures attachments == staticAttachments + Extracted(tokens, jobId, row).parts
    ensures attachments[..|staticAttachments|] == staticAttachments
  {
    html := "";
    attachments := staticAttachments;
    var imageCounterForCid: nat := 0;
    for i := 0 to |tokens|
      invariant html == Extracted(tokens[..i], jobId, row).html
      invariant imageCounterForCid == |Extracted(tokens[..i], jobId, row).parts|
      invariant attachments == staticAttachments + Extracted(tokens[..i], jobId, row).parts
    {
      var t := tokens[i];
      assert tokens[..i + 1][..i] == tokens[..i];
      if t.DataImage? {
        imageCounterForCid := imageCounterForCid + 1;
        var cid := ContentId(jobId, row, imageCounterForCid);
        attachments := attachments + [InlineAttachment(t.data, "base64", cid, t.mime)];
        var tag := "<img src=\"cid:" + cid + "\"" + t.trailing + ">";
        html := html + tag;
      } else {
        html := html + Original(t);
      }
    }
    assert tokens[..|tokens|] == tokens;
  }

  /** One part per data image, the `k`-th carrying the `k`-th image's
      payload and declared type under content id `emb_<jobId>_<row>_<k+1>`. */
  lemma {:induction false} ExtractedParts(tokens: seq<Token>, jobId: string, row: nat)
    ensures |Extracted(tokens, jobId, row).parts| == |Images(tokens)|
    ensures forall k :: 0 <= k < |Images(tokens)| ==>
              Extracted(tokens, jobId, row).parts[k] == ImagePart(Images(tokens)[k], jobId, row, k + 1)
  {
    if tokens != [] {
      var init := tokens[..|tokens| - 1];
      ExtractedParts(init, jobId, row);
      var e, t := Extracted(init, jobId, row), tokens[|tokens| - 1];
      if t.DataImage? {
        assert Images(tokens) == Images(init) + [t];
        assert Extracted(tokens, jobId, row).parts == e.parts + [ImagePart(t, jobId, row, |e.parts| + 1)];
      } else {
        assert Images(tokens) == Images(init);
      }
    }
  }

  /** A body without data images is sent as it was, with no extra parts. */
  lemma {:induction false} NoImagesUntouched(tokens: seq<Token>, jobId: string, row: nat)
    requires forall j :: 0 <= j < |tokens| ==> !tokens[j].DataImage?
    ensures Extracted(tokens, jobId, row) == Extraction(Source(tokens), [])
  {
    if tokens != [] {
      NoImagesUntouched(tokens[..|tokens| - 1], jobId, row);
    }
  }

  /** A worked example: one base64 PNG between two pieces of
      text gives back one `cid:` reference and exactly one PNG part whose
      content id matches it. */
  lemma OnePngExample(jobId: string, before: string, data: string, after: string)
    ensures Extracted([Text(before), DataImage(" ", "image/png", "", data, ""), Text(after)], jobId, 0)
         == Extraction(before + "<img src=\"cid:" + ContentId(jobId, 0, 1) + "\">" + after,
                       [InlineAttachment(data, "base64", ContentId(jobId, 0, 1), "image/png")])
  {
    var img := DataImage(" ", "image/png", "", data, "");
    var ts := [Text(before), img, Text(after)];
    assert ts[..2] == [Text(before), img];
    assert ts[..2][..1] == [Text(before)];
    assert ts[..2][..1][..0] == [];
    assert Extracted([], jobId, 0) == Extraction("", []);
    var e1 := Extracted([Text(before)], jobId, 0);
    assert e1 == Extraction(before, []);
    var e2 := Extracted([Text(before), img], jobId, 0);
    assert e2 == Extraction(before + CidTag(img, ContentId(jobId, 0, 1)), [ImagePart(img, jobId, 0, 1)]);
  }

  /** Splits `a + "_" + b` at its first `_` when `a` has none. */
  lemma SplitAtUnderscore(a: string, b: string, c: string, d: string)
    requires '_' !in a && '_' !in c
    requires a + "_" + b == c + "_" + d
    ensures a == c && b == d
  {
    IndexOfCharAfter(a, '_', b);
    IndexOfCharAfter(c, '_', d);
    assert |a| == |c|;
    assert a == (a + "_" + b)[..|a|];
    assert c == (c + "_" + d)[..|c|];
    assert b == (a + "_" + b)[|a| + 1..];
    assert d == (c + "_" + d)[|c| + 1..];
  }

  /** Content ids never collide: for job ids without `_` (a UUID has
      none), equal ids mean the same job, the same row and the same image. */
  lemma ContentIdInjective(j1: string, r1: nat, k1: nat, j2: string, r2: nat, k2: nat)
    requires '_' !in j1 && '_' !in j2
    requires ContentId(j1, r1, k1) == ContentId(j2, r2, k2)
    ensures j1 == j2 && r1 == r2 && k1 == k2
  {
    var a1, a2 := NatToString(r1), NatToString(r2);
    var b1, b2 := NatToString(k1), NatToString(k2);
    var t1, t2 := j1 + "_" + (a1 + "_" + b1), j2 + "_" + (a2 + "_" + b2);
    assert t1 == t2 by {
      assert ContentId(j1, r1, k1) == "emb_" + t1;
      assert ContentId(j2, r2, k2) == "emb_" + t2;
      assert t1 == ("emb_" + t1)[4..];
      assert t2 == ("emb_" + t2)[4..];
    }
    SplitAtUnderscore(j1, a1 + "_" + b1, j2, a2 + "_" + b2);
    DecimalHasNoUnderscore(r1);
    DecimalHasNoUnderscore(r2);
    SplitAtUnderscore(a1, b1, a2, b2);
    NatToStringInjective(r1, r2);
    NatToStringInjective(k1, k2);
  }

  lemma DecimalHasNoUnderscore(n: nat)
    ensures '_' !in NatToString(n)
  {
    var s := NatToString(n);
    forall j | 0 <= j < |s|
      ensures s[j] != '_'
    {
      assert IsDigit(s[j]);
    }
  }
}
