/** The data-dependent text fragments of the notification mails: the masked
    address written to logs, the option lists, and the two URL helpers used
    when listing uploaded files. */
module EmailText {

  import opened Wrappers
  import opened Text

  // ---------------------------------------------------------------- masking

  /** `email.split('@')[0]`: the text before the first `@`. */
  function LocalPart(email: string): (l: string)
    ensures '@' !in l
    ensures l <= email
  {
    match IndexOf(email, '@')
    case None => email
    case Some(i) => email[..i]
  }

  /** `email.split('@')[1]`: the text between the first `@` and the next one,
      or `undefined` when there is no `@`. */
  function DomainPart(email: string): (d: Option<string>)
    ensures d.None? <==> '@' !in email
    ensures d.Some? ==> '@' !in d.value
  {
    match IndexOf(email, '@')
    case None => None
    case Some(i) => Some(LocalPart(email[i + 1..]))
  }

  function Stars(n: nat): (s: string)
    ensures |s| == n && forall i :: 0 <= i < n ==> s[i] == '*'
  {
    if n == 0 then [] else Stars(n - 1) + ['*']
  }

  /** `local.charAt(0) + '*'.repeat(max(0, len - 2)) + local.charAt(len - 1)`:
      first and last character kept, the rest starred. `charAt` of an index
      out of range is empty, so an empty part stays empty, and a one-letter
      part is written twice. */
  function MaskLocal(local: string): (m: string)
    ensures local == [] ==> m == []
    ensures |local| == 1 ==> m == local + local
    ensures |local| >= 2 ==>
              && |m| == |local|
              && m[0] == local[0] && m[|m| - 1] == local[|local| - 1]
              && forall i :: 0 < i < |m| - 1 ==> m[i] == '*'
    ensures '@' !in local ==> '@' !in m
  {
    if local == [] then []
    else [local[0]] + Stars(if |local| >= 2 then |local| - 2 else 0) + [local[|local| - 1]]
  }

  /** `maskEmail`: the masked local part, `@`, and the domain (the text
      "undefined" when the address has no `@`). */
  function MaskEmail(email: string): string
  {
    MaskLocal(LocalPart(email)) + "@" + DomainPart(email).GetOr("undefined")
  }

  /** Masking an already masked local part changes nothing. */
  lemma MaskLocalIdempotent(local: string)
    ensures MaskLocal(MaskLocal(local)) == MaskLocal(local)
  {
    var m := MaskLocal(local);
    if |local| >= 2 {
      var mm := MaskLocal(m);
      assert |mm| == |m|;
      forall i | 0 <= i < |m| ensures mm[i] == m[i] {
      }
    }
  }

  /** The masked address is the masked local part, `@`, and the unchanged
      domain: the domain can be read back after the first `@`. */
  lemma MaskEmailParts(email: string)
    ensures LocalPart(MaskEmail(email)) == MaskLocal(LocalPart(email))
    ensures DomainPart(MaskEmail(email)) == Some(DomainPart(email).GetOr("undefined"))
  {
    var m := MaskLocal(LocalPart(email));
    var d := DomainPart(email).GetOr("undefined");
    assert '@' !in d;
    IndexOfAfterPrefix(m, '@', d);
    assert MaskEmail(email) == m + ['@'] + d;
    assert (m + ['@'] + d)[|m| + 1..] == d;
    assert (m + ['@'] + d)[..|m|] == m;
  }

  /** For an address `local@domain` with a local part of two or more
      characters, the mask keeps the length, the first and last character
      and the domain, and stars everything in between. */
  lemma MaskEmailOfAddress(local: string, domain: string)
    requires '@' !in local && '@' !in domain && |local| >= 2
    ensures var r := MaskEmail(local + "@" + domain);
      && |r| == |local| + 1 + |domain|
      && r[0] == local[0] && r[|local| - 1] == local[|local| - 1]
      && (forall i :: 0 < i < |local| - 1 ==> r[i] == '*')
      && r[|local|..] == "@" + domain
  {
    IndexOfAfterPrefix(local, '@', domain);
    var e := local + ['@'] + domain;
    assert e[..|local|] == local;
    assert e[|local| + 1..] == domain;
    assert LocalPart(domain) == domain;
  }

  /** Masking is idempotent: a masked address masks to itself. */
  lemma MaskEmailIdempotent(email: string)
    ensures MaskEmail(MaskEmail(email)) == MaskEmail(email)
  {
    MaskEmailParts(email);
    MaskLocalIdempotent(LocalPart(email));
  }

  // ---------------------------------------------------------------- option lists

  /** Delivery and pickup text: the list joined with ", ", the free-text
      "other" appended only when it is non-empty, and "None" when the list
      is absent or empty, even if "other" is set. */
  function OptionsText(list: Option<seq<string>>, other: Option<string>): (r: string)
    ensures list.None? || list.value == [] ==> r == "None"
  {
    if list.Some? && |list.value| > 0 then
      Join(list.value, ", ") + (if other.Some? && other.value != [] then ", " + other.value else "")
    else "None"
  }

  /** A non-empty "other" text reads as one more entry at the end of the
      list. */
  lemma OptionsOtherIsLastEntry(xs: seq<string>, other: string)
    requires |xs| > 0 && other != []
    ensures OptionsText(Some(xs), Some(other)) == OptionsText(Some(xs + [other]), None)
  {
    JoinSnoc(xs, other, ", ");
    assert Join(xs, ", ") + ", " + other == Join(xs, ", ") + (", " + other);
  }

  /** An empty or absent "other" text adds nothing to the list. */
  lemma OptionsWithoutOther(xs: seq<string>, other: Option<string>)
    requires |xs| > 0 && (other.None? || other.value == [])
    ensures OptionsText(Some(xs), other) == Join(xs, ", ")
  {
  }

  /** Product-category and customer-question text: like the options text but
      with no "None" fallback, so an empty list with an "other" text starts
      with the separator. */
  function CategoriesText(list: seq<string>, other: Option<string>): (r: string)
    ensures list == [] && (other.None? || other.value == []) ==> r == []
  {
    Join(list, ", ") + (if other.Some? && other.value != [] then ", " + other.value else "")
  }

  /** Both compositions agree on a non-empty list; on an empty one the
      categories text is ", other" (or empty) where the options text is "None". */
  lemma CategoriesAgainstOptions(xs: seq<string>, other: Option<string>)
    ensures |xs| > 0 ==> CategoriesText(xs, other) == OptionsText(Some(xs), other)
    ensures xs == [] && other.Some? && other.value != [] ==> CategoriesText(xs, other) == ", " + other.value
    ensures xs == [] ==> OptionsText(Some(xs), other) == "None"
  {
  }

  // ---------------------------------------------------------------- URLs

  const ImageExtensions: seq<string> := [".jpg", ".jpeg", ".png", ".gif", ".webp", ".svg", ".bmp"]

  /** `isImageUrl`: the lower-cased URL contains one of the image extensions
      anywhere, not necessarily at the end. */
  predicate IsImageUrl(url: string)
  {
    exists k :: 0 <= k < |ImageExtensions| && Contains(ToLowerAscii(url), ImageExtensions[k])
  }

  lemma ToLowerIdempotent(s: string)
    ensures ToLowerAscii(ToLowerAscii(s)) == ToLowerAscii(s)
  {
  }

  lemma ToLowerAppend(a: string, b: string)
    ensures ToLowerAscii(a + b) == ToLowerAscii(a) + ToLowerAscii(b)
  {
  }

  /** The test ignores letter case. */
  lemma ImageUrlIgnoresCase(url: string)
    ensures IsImageUrl(ToLowerAscii(url)) <==> IsImageUrl(url)
  {
    ToLowerIdempotent(url);
  }

  /** Text around an image URL keeps it an image URL: a query string or a
      path prefix does not hide the extension. */
  lemma ImageUrlExtends(a: string, b: string)
    requires IsImageUrl(a)
    ensures IsImageUrl(a + b) && IsImageUrl(b + a)
  {
    var k :| 0 <= k < |ImageExtensions| && Contains(ToLowerAscii(a), ImageExtensions[k]);
    var ext := ImageExtensions[k];
    var i: nat :| i <= |ToLowerAscii(a)| && OccursAt(ToLowerAscii(a), ext, i);
    ToLowerAppend(a, b);
    ToLowerAppend(b, a);
    var la, lb := ToLowerAscii(a), ToLowerAscii(b);
    assert (la + lb)[i..i + |ext|] == la[i..i + |ext|];
    assert OccursAt(la + lb, ext, i);
    assert (lb + la)[|lb| + i..|lb| + i + |ext|] == la[i..i + |ext|];
    assert OccursAt(lb + la, ext, |lb| + i);
  }

  /** Any URL ending in ".PNG", in whatever case, counts as an image. */
  lemma PngUrlIsImage(base: string)
    ensures IsImageUrl(base + ".PNG")
  {
    ToLowerAppend(base, ".PNG");
    var lb := ToLowerAscii(base);
    assert ToLowerAscii(".PNG") == ".png";
    assert (lb + ".png")[|lb|..|lb| + 4] == ".png";
    assert OccursAt(lb + ".png", ImageExtensions[2], |lb|);
  }

  /** The schemes `sanitizeUrl` lets through, as `URL.protocol` writes them. */
  predicate SafeScheme(scheme: Option<string>)
  {
    scheme == Some("http:") || scheme == Some("https:")
  }

  /** `sanitizeUrl`, given the URL parser's scheme extractor (`None` when
      parsing throws): an http or https URL is returned unchanged, anything
      else becomes "#". */
  function SanitizeUrl(url: string, schemeOf: string -> Option<string>): (r: string)
    ensures r == url || r == "#"
    ensures r == "#" || SafeScheme(schemeOf(r))
    ensures SafeScheme(schemeOf(url)) ==> r == url
  {
    if SafeScheme(schemeOf(url)) then url else "#"
  }

  /** Sanitising twice is sanitising once, since "#" is not an absolute URL. */
  lemma SanitizeIdempotent(url: string, schemeOf: string -> Option<string>)
    requires schemeOf("#").None?
    ensures SanitizeUrl(SanitizeUrl(url, schemeOf), schemeOf) == SanitizeUrl(url, schemeOf)
  {
  }
}
