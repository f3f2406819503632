/** Multipart form data as the handlers receive it, after the multipart
    parser has grouped it: an ordered list of text and file parts, each
    under a key. A key may occur several times. */
module FormFields {

  import opened Wrappers
  import opened Text
  import opened Validations

  datatype Part = TextPart(key: string, value: string) | FilePart(key: string, file: FileInfo)

  type FormData = seq<Part>

  /** `fields[key]`: every text value sent under `key`, in order. */
  function Values(fd: FormData, key: string): (vs: seq<string>)
    ensures |vs| <= |fd|
  {
    if fd == [] then []
    else (if fd[0].TextPart? && fd[0].key == key then [fd[0].value] else []) + Values(fd[1..], key)
  }

  /** `files[key]`: every file sent under `key`, in order. */
  function Files(fd: FormData, key: string): (fs: seq<FileInfo>)
    ensures |fs| <= |fd|
  {
    if fd == [] then []
    else (if fd[0].FilePart? && fd[0].key == key then [fd[0].file] else []) + Files(fd[1..], key)
  }

  /** Every value read under a key was sent under that key, and every
      text part sent under it is read. */
  lemma {:induction false} ValuesSent(fd: FormData, key: string)
    ensures forall v :: v in Values(fd, key) <==> TextPart(key, v) in fd
  {
    if fd != [] {
      ValuesSent(fd[1..], key);
      assert forall p :: p in fd <==> p == fd[0] || p in fd[1..];
    }
  }

  /** Every file read under a key was sent under that key, and every file
      part sent under it is read. */
  lemma {:induction false} FilesSent(fd: FormData, key: string)
    ensures forall f :: f in Files(fd, key) <==> FilePart(key, f) in fd
  {
    if fd != [] {
      FilesSent(fd[1..], key);
      assert forall p :: p in fd <==> p == fd[0] || p in fd[1..];
    }
  }

  lemma {:induction false} ValuesAppend(a: FormData, b: FormData, key: string)
    ensures Values(a + b, key) == Values(a, key) + Values(b, key)
  {
    if a == [] {
      assert a + b == b;
    } else {
      var ab := a + b;
      var h := if a[0].TextPart? && a[0].key == key then [a[0].value] else [];
      assert ab[0] == a[0];
      assert ab[1..] == a[1..] + b;
      assert Values(ab, key) == h + Values(a[1..] + b, key);
      ValuesAppend(a[1..], b, key);
    }
  }

  lemma {:induction false} FilesAppend(a: FormData, b: FormData, key: string)
    ensures Files(a + b, key) == Files(a, key) + Files(b, key)
  {
    if a == [] {
      assert a + b == b;
    } else {
      assert a == [a[0]] + a[1..];
      assert a + b == [a[0]] + (a[1..] + b);
      FilesCons(a[0], a[1..], key);
      FilesCons(a[0], a[1..] + b, key);
      FilesAppend(a[1..], b, key);
    }
  }

  /** The files of a part followed by more parts. */
  lemma FilesCons(p: Part, rest: FormData, key: string)
    ensures Files([p] + rest, key) == Files([p], key) + Files(rest, key)
  {
    var fd := [p] + rest;
    assert fd[0] == p && fd[1..] == rest;
    assert [p][1..] == [];
  }

  /** A part under another key, or of the other kind, does not show up. */
  lemma OtherPartIgnored(p: Part, key: string)
    ensures p.key != key || p.FilePart? ==> Values([p], key) == []
    ensures p.key != key || p.TextPart? ==> Files([p], key) == []
  {
  }

  /** `getFieldValue` of the two client handlers: the first value sent, and
      `undefined` when there is none or it is empty. Later values under the
      same key are ignored, even when the first one is empty. */
  function FieldValue(fd: FormData, key: string): (r: Option<string>)
    ensures r.Some? ==> Values(fd, key) != [] && r.value == Values(fd, key)[0] != []
    ensures r.None? <==> Values(fd, key) == [] || Values(fd, key)[0] == []
  {
    var vs := Values(fd, key);
    if |vs| > 0 && vs[0] != [] then Some(vs[0]) else None
  }

  /** The legacy handler's `Array.isArray(f) ? f[0] : f`: the first value
      sent, kept even when empty. */
  function FirstValue(fd: FormData, key: string): (r: Option<string>)
    ensures r.Some? ==> Values(fd, key) != [] && r.value == Values(fd, key)[0]
    ensures r.None? <==> Values(fd, key) == []
  {
    var vs := Values(fd, key);
    if |vs| > 0 then Some(vs[0]) else None
  }

  /** `Array.isArray(files[key]) ? files[key][0] : files[key]`. */
  function FirstFile(fd: FormData, key: string): (r: Option<FileInfo>)
    ensures r.Some? ==> Files(fd, key) != [] && r.value == Files(fd, key)[0]
    ensures r.None? <==> Files(fd, key) == []
  {
    var fs := Files(fd, key);
    if |fs| > 0 then Some(fs[0]) else None
  }

  /** The total size of the files in the body, the quantity formidable's
      total-size limit is checked against. Every single file is at most the
      total, so a per-file limit equal to the total limit never fires on
      its own. */
  function FileBytes(fd: FormData): (n: nat)
    ensures fd == [] ==> n == 0
    ensures forall i :: 0 <= i < |fd| && fd[i].FilePart? ==> fd[i].file.size <= n
  {
    if fd == [] then 0
    else
      var rest := FileBytes(fd[1..]);
      assert forall i :: 1 <= i < |fd| ==> fd[i] == fd[1..][i - 1];
      (if fd[0].FilePart? then fd[0].file.size else 0) + rest
  }

  /** The total of two bodies sent one after the other is the sum of their
      totals. */
  lemma {:induction false} FileBytesAppend(a: FormData, b: FormData)
    ensures FileBytes(a + b) == FileBytes(a) + FileBytes(b)
  {
    if a == [] {
      assert a + b == b;
    } else {
      assert (a + b)[0] == a[0];
      assert (a + b)[1..] == a[1..] + b;
      FileBytesAppend(a[1..], b);
    }
  }

  /** Text parts carry no bytes of file. */
  lemma {:induction false} TextHasNoBytes(fd: FormData)
    requires forall i :: 0 <= i < |fd| ==> fd[i].TextPart?
    ensures FileBytes(fd) == 0
  {
    if fd != [] {
      assert forall i :: 0 <= i < |fd[1..]| ==> fd[1..][i] == fd[i + 1];
      TextHasNoBytes(fd[1..]);
    }
  }

  /** Only the first value counts: appending more values under a key that
      already has one changes nothing. */
  lemma FieldValueFirstWins(fd: FormData, key: string, more: FormData)
    requires Values(fd, key) != []
    ensures FieldValue(fd + more, key) == FieldValue(fd, key)
    ensures FirstValue(fd + more, key) == FirstValue(fd, key)
  {
    ValuesAppend(fd, more, key);
  }

  /** A form carrying exactly one non-empty value under a key yields it. */
  lemma FieldValueSingle(before: FormData, key: string, v: string, after: FormData)
    requires Values(before, key) == [] && v != []
    ensures FieldValue(before + [TextPart(key, v)] + after, key) == Some(v)
  {
    ValuesAppend(before + [TextPart(key, v)], after, key);
    ValuesAppend(before, [TextPart(key, v)], key);
  }

  /** `getFieldValue(fields.consent_checkbox) === 'true'`. */
  predicate ConsentGiven(fd: FormData)
  {
    FieldValue(fd, "consent_checkbox") == Some("true")
  }

  /** Consent is given exactly when the first value sent is the text "true":
      "TRUE", "on", "1" or a later "true" do not count. */
  lemma ConsentOnlyTrue(fd: FormData)
    ensures ConsentGiven(fd) <==> Values(fd, "consent_checkbox") != [] && Values(fd, "consent_checkbox")[0] == "true"
  {
  }

  // ---------------------------------------------------------------- additional documents

  /** The number of `additional_docs_i` keys the handlers look at. */
  const MaxDocs: nat := 10

  /** `additional_docs_${i}`. */
  function DocKey(i: nat): string
  {
    "additional_docs_" + NatToString(i)
  }

  /** Different indices give different keys. */
  lemma DocKeyInjective(i: nat, j: nat)
    requires DocKey(i) == DocKey(j)
    ensures i == j
  {
    var p := "additional_docs_";
    assert DocKey(i)[|p|..] == NatToString(i);
    assert DocKey(j)[|p|..] == NatToString(j);
    NatToStringInjective(i, j);
  }

  /** The documents found under the first `n` indexed keys: the first file
      of each key that has one, in index order. */
  function DocsUpTo(fd: FormData, n: nat): (docs: seq<FileInfo>)
    ensures |docs| <= n
  {
    if n == 0 then []
    else DocsUpTo(fd, n - 1) + (match FirstFile(fd, DocKey(n - 1)) case Some(f) => [f] case None => [])
  }

  /** Each document found comes from one of the first `n` indexed keys. */
  lemma {:induction false} DocsUpToFromKeys(fd: FormData, n: nat)
    ensures forall d :: d in DocsUpTo(fd, n) ==> exists i :: 0 <= i < n && FirstFile(fd, DocKey(i)) == Some(d)
  {
    if n > 0 {
      DocsUpToFromKeys(fd, n - 1);
    }
  }

  /** A document is found for every one of the first `n` keys that has a file. */
  lemma {:induction false} DocsUpToCount(fd: FormData, n: nat)
    ensures (forall i :: 0 <= i < n ==> FirstFile(fd, DocKey(i)).Some?) ==> |DocsUpTo(fd, n)| == n
    ensures (forall i :: 0 <= i < n ==> FirstFile(fd, DocKey(i)).None?) ==> DocsUpTo(fd, n) == []
  {
    if forall i :: 0 <= i < n ==> FirstFile(fd, DocKey(i)).Some? {
      DocsUpToAll(fd, n);
    }
    if forall i :: 0 <= i < n ==> FirstFile(fd, DocKey(i)).None? {
      DocsUpToNone(fd, n);
    }
  }

  lemma {:induction false} DocsUpToAll(fd: FormData, n: nat)
    requires forall i :: 0 <= i < n ==> FirstFile(fd, DocKey(i)).Some?
    ensures |DocsUpTo(fd, n)| == n
  {
    if n > 0 {
      var k := n - 1;
      assert FirstFile(fd, DocKey(k)).Some?;
      DocsUpToAll(fd, k);
    }
  }

  lemma {:induction false} DocsUpToNone(fd: FormData, n: nat)
    requires forall i :: 0 <= i < n ==> FirstFile(fd, DocKey(i)).None?
    ensures DocsUpTo(fd, n) == []
  {
    if n > 0 {
      var k := n - 1;
      assert FirstFile(fd, DocKey(k)).None?;
      DocsUpToNone(fd, k);
    }
  }

  /** The handlers' loop over `additional_docs_0` … `additional_docs_9`:
      the first file under each key, skipping keys without one. */
  method CollectDocs(fd: FormData) returns (docs: seq<FileInfo>)
    ensures docs == DocsUpTo(fd, MaxDocs)
    ensures |docs| <= MaxDocs
    ensures forall d :: d in docs ==> exists i :: 0 <= i < MaxDocs && FirstFile(fd, DocKey(i)) == Some(d)
  {
    docs := [];
    var i := 0;
    while i < MaxDocs
      invariant 0 <= i <= MaxDocs
      invariant docs == DocsUpTo(fd, i)
    {
      var file := FirstFile(fd, DocKey(i));
      if file.Some? {
        docs := docs + [file.value];
      }
      i := i + 1;
    }
    DocsUpToFromKeys(fd, MaxDocs);
  }

  // ---------------------------------------------------------------- building form data

  /** `formData.append(key, v)` for each `v` in `vs`, in order. */
  function Repeated(key: string, vs: seq<string>): (fd: FormData)
    ensures |fd| == |vs|
    ensures forall i :: 0 <= i < |fd| ==> fd[i] == TextPart(key, vs[i])
  {
    if vs == [] then [] else [TextPart(key, vs[0])] + Repeated(key, vs[1..])
  }

  /** Reading a key back from its repeated appends gives the values in
      order; other keys read nothing. */
  lemma {:induction false} ValuesOfRepeated(key: string, vs: seq<string>, k: string)
    ensures Values(Repeated(key, vs), k) == if k == key then vs else []
  {
    if vs != [] {
      ValuesAppend([TextPart(key, vs[0])], Repeated(key, vs[1..]), k);
      ValuesOfRepeated(key, vs[1..], k);
    }
  }

  /** The text parts a browser form builds from a list of fields, each
      appended once per value it carries (none for a skipped field). */
  function PartsOf(fields: seq<(string, seq<string>)>): (fd: FormData)
    ensures forall i :: 0 <= i < |fd| ==> fd[i].TextPart?
  {
    if fields == [] then [] else Repeated(fields[0].0, fields[0].1) + PartsOf(fields[1..])
  }

  /** A field with an optional value carries it when present. */
  function OptSeq(o: Option<string>): (vs: seq<string>)
    ensures |vs| <= 1
  {
    if o.Some? then [o.value] else []
  }

  /** A key no field carries has no value. */
  lemma {:induction false} ValuesOfPairsAbsent(fields: seq<(string, seq<string>)>, key: string)
    requires forall i :: 0 <= i < |fields| ==> fields[i].0 != key
    ensures Values(PartsOf(fields), key) == []
  {
    if fields != [] {
      ValuesAppend(Repeated(fields[0].0, fields[0].1), PartsOf(fields[1..]), key);
      ValuesOfRepeated(fields[0].0, fields[0].1, key);
      ValuesOfPairsAbsent(fields[1..], key);
    }
  }

  /** The values under the key of field `j`, when no other field shares
      that key: exactly the values of that field, in order. */
  lemma {:induction false} ValuesOfPairs(fields: seq<(string, seq<string>)>, j: nat)
    requires j < |fields|
    requires forall i :: 0 <= i < |fields| && i != j ==> fields[i].0 != fields[j].0
    ensures Values(PartsOf(fields), fields[j].0) == fields[j].1
  {
    var key := fields[j].0;
    var rest := fields[1..];
    assert PartsOf(fields) == Repeated(fields[0].0, fields[0].1) + PartsOf(rest);
    ValuesAppend(Repeated(fields[0].0, fields[0].1), PartsOf(rest), key);
    ValuesOfRepeated(fields[0].0, fields[0].1, key);
    if j == 0 {
      forall i | 0 <= i < |rest| ensures rest[i].0 != key {
        assert rest[i] == fields[i + 1];
      }
      ValuesOfPairsAbsent(rest, key);
    } else {
      assert rest[j - 1] == fields[j];
      forall i | 0 <= i < |rest| && i != j - 1 ensures rest[i].0 != key {
        assert rest[i] == fields[i + 1];
      }
      ValuesOfPairs(rest, j - 1);
    }
  }

  /** `getFieldValue` of a field appended with at most one value: that
      value unless it is empty. */
  lemma FieldValueOfOptional(fd: FormData, key: string, o: Option<string>)
    requires Values(fd, key) == OptSeq(o)
    ensures FieldValue(fd, key) == NonEmpty(o)
  {
  }

  /** The server turns an empty text into `undefined`. */
  function NonEmpty(o: Option<string>): Option<string>
  {
    if o == Some("") then None else o
  }

  /** `if (value) formData.append(key, value)`: a text appended only when
      present and not empty. */
  function IfTruthy(o: Option<string>): (vs: seq<string>)
    ensures vs == OptSeq(NonEmpty(o))
  {
    if o.Some? && o.value != [] then [o.value] else []
  }

  /** A text appended only when truthy is read back by `FirstValue` as
      itself, and as absent when it was empty. */
  lemma FirstValueOfTruthy(fd: FormData, key: string, o: Option<string>)
    requires Values(fd, key) == IfTruthy(o)
    ensures FirstValue(fd, key) == NonEmpty(o)
  {
  }

  /** Dropping an empty text changes neither the text nor whether it is
      filled in. */
  lemma NonEmptyKeepsText(o: Option<string>)
    ensures var r := NonEmpty(o);
      && (r.Some? ==> r.value != [] && o == r)
      && (r.None? ==> o.None? || o.value == [])
      && (Filled(r) <==> Filled(o))
  {
  }

  /** Form data made of text parts only has no files. */
  lemma {:induction false} NoFilesInText(fd: FormData, key: string)
    requires forall i :: 0 <= i < |fd| ==> fd[i].TextPart?
    ensures Files(fd, key) == []
  {
    if fd != [] {
      NoFilesInText(fd[1..], key);
    }
  }

  /** Form data made of file parts only has no text values. */
  lemma {:induction false} NoValuesInFiles(fd: FormData, key: string)
    requires forall i :: 0 <= i < |fd| ==> fd[i].FilePart?
    ensures Values(fd, key) == []
  {
    if fd != [] {
      NoValuesInFiles(fd[1..], key);
    }
  }

  /** Documents appended one part each, document `m` under `key(start + m)`. */
  function IndexedParts(docs: seq<FileInfo>, start: nat, key: nat -> string): (fd: FormData)
    ensures |fd| == |docs|
    ensures forall i :: 0 <= i < |fd| ==> fd[i].FilePart?
  {
    if docs == [] then [] else [FilePart(key(start), docs[0])] + IndexedParts(docs[1..], start + 1, key)
  }

  /** Documents appended as `additional_docs_${index}`, starting at `start`. */
  function IndexedDocs(docs: seq<FileInfo>, start: nat): (fd: FormData)
    ensures |fd| == |docs|
    ensures forall i :: 0 <= i < |fd| ==> fd[i].FilePart? && fd[i].key == DocKey(start + i) && fd[i].file == docs[i]
  {
    var fd := IndexedParts(docs, start, DocKey);
    IndexedPartsAt(docs, start, DocKey);
    fd
  }

  /** A single file part carries its file under its own key only. */
  lemma FilesOfOne(k: string, f: FileInfo, key: string)
    ensures Files([FilePart(k, f)], key) == (if k == key then [f] else [])
  {
    assert [FilePart(k, f)][1..] == [];
  }

  /** Each indexed key carries exactly its own document. */
  lemma FilesOfIndexedDocs(docs: seq<FileInfo>, start: nat, i: nat)
    ensures Files(IndexedDocs(docs, start), DocKey(i)) ==
      (if start <= i < start + |docs| then [docs[i - start]] else [])
  {
    var fd := IndexedDocs(docs, start);
    forall m | 0 <= m < |fd|
      ensures fd[m].FilePart? && (fd[m].key == DocKey(i) <==> m == i - start)
    {
      if DocKey(start + m) == DocKey(i) {
        DocKeyInjective(start + m, i);
      }
    }
    FilesOfSingleKey(fd, DocKey(i), i - start);
  }

  /** The part at position `m` carries document `m` under `key(start + m)`. */
  lemma {:induction false} IndexedPartsAt(docs: seq<FileInfo>, start: nat, key: nat -> string)
    ensures forall m :: 0 <= m < |docs| ==>
      IndexedParts(docs, start, key)[m] == FilePart(key(start + m), docs[m])
  {
    if docs != [] {
      var rest := IndexedParts(docs[1..], start + 1, key);
      IndexedPartsAt(docs[1..], start + 1, key);
      assert IndexedParts(docs, start, key) == [FilePart(key(start), docs[0])] + rest;
      forall m | 1 <= m < |docs|
        ensures IndexedParts(docs, start, key)[m] == FilePart(key(start + m), docs[m])
      {
        assert rest[m - 1] == FilePart(key(start + 1 + (m - 1)), docs[1..][m - 1]);
      }
    }
  }

  /** When only the part at position `j` is under `key`, and it is a file,
      the key carries exactly that file. */
  lemma {:induction false} FilesOfSingleKey(fd: FormData, key: string, j: int)
    requires forall m :: 0 <= m < |fd| ==> fd[m].FilePart? && (fd[m].key == key <==> m == j)
    ensures Files(fd, key) == (if 0 <= j < |fd| then [fd[j].file] else [])
  {
    if fd != [] {
      assert forall m :: 0 <= m < |fd| - 1 ==> fd[1..][m] == fd[m + 1];
      FilesOfSingleKey(fd[1..], key, j - 1);
      if 0 < j < |fd| {
        assert fd[1..][j - 1] == fd[j];
      }
    }
  }

  /** A key no part carries has no files. */
  lemma {:induction false} FilesOfAbsentKey(fd: FormData, key: string)
    requires forall m :: 0 <= m < |fd| ==> fd[m].FilePart? && fd[m].key != key
    ensures Files(fd, key) == []
  {
    FilesOfSingleKey(fd, key, -1);
  }

  /** No indexed key is a plain field name without the `additional_docs_` prefix. */
  lemma DocKeyPrefix(i: nat, key: string)
    requires |key| > 0 && key[0] != 'a'
    ensures DocKey(i) != key
  {
    assert DocKey(i)[0] == 'a';
  }

  function Min(a: nat, b: nat): nat
  {
    if a < b then a else b
  }

  lemma DocsUpToStep(fd: FormData, docs: seq<FileInfo>, k: nat)
    requires DocsUpTo(fd, k) == docs[..Min(k, |docs|)]
    requires Files(fd, DocKey(k)) == (if k < |docs| then [docs[k]] else [])
    ensures DocsUpTo(fd, k + 1) == docs[..Min(k + 1, |docs|)]
  {
    if k < |docs| {
      assert FirstFile(fd, DocKey(k)) == Some(docs[k]);
      assert docs[..k + 1] == docs[..k] + [docs[k]];
    } else {
      assert FirstFile(fd, DocKey(k)).None?;
    }
  }

  /** When the first `n` keys carry the documents `docs` and nothing
      else, collecting gives them back, cut at `n`. */
  lemma {:induction false} DocsUpToIndexed(fd: FormData, docs: seq<FileInfo>, n: nat)
    requires forall i :: 0 <= i < n ==> Files(fd, DocKey(i)) == (if i < |docs| then [docs[i]] else [])
    ensures DocsUpTo(fd, n) == docs[..Min(n, |docs|)]
  {
    if n > 0 {
      var k := n - 1;
      assert Files(fd, DocKey(k)) == (if k < |docs| then [docs[k]] else []);
      DocsUpToIndexed(fd, docs, k);
      DocsUpToStep(fd, docs, k);
    }
  }

  /** Parts no indexed-document key can match: text parts, and file parts
      under a key too short to be one (an indexed key is longer than
      `additional_docs_`). */
  predicate NoDocParts(fd: FormData)
  {
    forall k :: 0 <= k < |fd| ==> fd[k].TextPart? || |fd[k].key| <= 16
  }

  lemma {:induction false} NoDocFiles(fd: FormData, i: nat)
    requires NoDocParts(fd)
    ensures Files(fd, DocKey(i)) == []
  {
    if fd != [] {
      assert |DocKey(i)| > 16;
      NoDocFiles(fd[1..], i);
    }
  }

  /** Documents appended under indexed keys after parts no indexed key
      matches are collected back in order, the first `n` of them. */
  lemma IndexedDocsCollected(pre: FormData, docs: seq<FileInfo>, n: nat)
    requires NoDocParts(pre)
    ensures DocsUpTo(pre + IndexedDocs(docs, 0), n) == docs[..Min(n, |docs|)]
  {
    var fd := pre + IndexedDocs(docs, 0);
    forall i | 0 <= i < n
      ensures Files(fd, DocKey(i)) == (if i < |docs| then [docs[i]] else [])
    {
      FilesAppend(pre, IndexedDocs(docs, 0), DocKey(i));
      NoDocFiles(pre, i);
      FilesOfIndexedDocs(docs, 0, i);
    }
    DocsUpToIndexed(fd, docs, n);
  }

  /** No indexed key is a plain field name such as `menu_file`. */
  lemma FilesOfIndexedDocsOther(docs: seq<FileInfo>, start: nat, key: string)
    requires |key| > 0 && key[0] != 'a'
    ensures Files(IndexedDocs(docs, start), key) == []
  {
    var fd := IndexedDocs(docs, start);
    forall m | 0 <= m < |fd|
      ensures fd[m].FilePart? && fd[m].key != key
    {
      DocKeyPrefix(start + m, key);
    }
    FilesOfAbsentKey(fd, key);
  }

  /** `value.toString()` of a boolean. */
  function BoolText(b: bool): string
  {
    if b then "true" else "false"
  }
}
