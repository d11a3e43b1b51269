/**
 Credentials leave the server masked and come back with every save: values that still equal
 the mask of the stored one are replaced by the stored plaintext. Characters are runes.
 */
module Masking {
  import opened Text

  const SECRET_MASK := "****"

  function MaskSecret(v: string): string {
    if |v| < 10 then SECRET_MASK else v[..4] + "..." + v[|v| - 4..]
  }

  /** What can be seen of a secret: that it is short, or four characters at each end. */
  predicate LookAlike(a: string, b: string) {
    if |a| < 10 || |b| < 10 then |a| < 10 && |b| < 10
    else a[..4] == b[..4] && a[|a| - 4..] == b[|b| - 4..]
  }

  /** Two secrets have the same mask exactly when what can be seen of them agrees: at least two
      characters are hidden, and so is the length. */
  lemma MaskShowsOnlyEnds(a: string, b: string)
    ensures MaskSecret(a) == MaskSecret(b) <==> LookAlike(a, b)
  {
    var m, n := MaskSecret(a), MaskSecret(b);
    if |a| >= 10 && |b| >= 10 {
      assert m[..4] == a[..4] && n[..4] == b[..4];
      assert m[7..] == a[|a| - 4..] && n[7..] == b[|b| - 4..];
    }
  }

  /** Only these secrets look the same masked and unmasked. */
  lemma MaskFixedPoints(v: string)
    ensures MaskSecret(v) == v <==> v == SECRET_MASK || (|v| == 11 && v[4..7] == "...")
  {
  }

  /** Decoded JSON, as far as credentials are concerned. */
  datatype Json = Str(text: string) | Obj(fields: map<string, Json>) | Other(raw: string)

  datatype Document = Nil | Document(fields: map<string, Json>)

  predicate IsSection(key: string) { key == "headers" || key == "env" }

  predicate IsBearer(section: string, name: string, v: string) {
    section == "headers" && name == "Authorization" && SCHEME <= v
  }

  function MaskEntry(section: string, name: string, v: Json): Json {
    if !v.Str? then v
    else if IsBearer(section, name, v.text) then Str(SCHEME + MaskSecret(TrimPrefix(v.text, SCHEME)))
    else Str(MaskSecret(v.text))
  }

  function MaskSection(key: string, v: Json): Json {
    if IsSection(key) && v.Obj? then Obj(map n | n in v.fields :: MaskEntry(key, n, v.fields[n])) else v
  }

  /** maskConfigCredentials. */
  function Mask(d: Document): Document {
    if d.Nil? then Nil else Document(map k | k in d.fields :: MaskSection(k, d.fields[k]))
  }

  /** Every string among the headers and the environment leaves the server as its mask, the
      scheme of a bearer token excepted, and nothing else is touched. */
  lemma SecretsAreMasked(d: Document, key: string)
    requires d.Document? && key in d.fields
    ensures key in Mask(d).fields
    ensures var v, m := d.fields[key], Mask(d).fields[key];
            if (key == "headers" || key == "env") && v.Obj? then
              && m.Obj? && m.fields.Keys == v.fields.Keys
              && forall n :: n in v.fields ==>
                   m.fields[n] ==
                   if !v.fields[n].Str? then v.fields[n]
                   else
                     var text := v.fields[n].text;
                     if key == "headers" && n == "Authorization" && SCHEME <= text
                     then Str(SCHEME + MaskSecret(text[|SCHEME|..]))
                     else Str(MaskSecret(text))
            else m == v
  {
  }

  predicate EntriesLookAlike(section: string, name: string, a: Json, b: Json) {
    || a == b
    || (a.Str? && b.Str?
        && (if IsBearer(section, name, a.text) || IsBearer(section, name, b.text)
            then IsBearer(section, name, a.text) && IsBearer(section, name, b.text)
                 && LookAlike(TrimPrefix(a.text, SCHEME), TrimPrefix(b.text, SCHEME))
            else LookAlike(a.text, b.text)))
  }

  predicate FieldsLookAlike(key: string, a: Json, b: Json) {
    if IsSection(key) && a.Obj? && b.Obj? then
      a.fields.Keys == b.fields.Keys && forall n :: n in a.fields ==> EntriesLookAlike(key, n, a.fields[n], b.fields[n])
    else a == b
  }

  lemma MaskedEntryIff(section: string, name: string, a: Json, b: Json)
    ensures MaskEntry(section, name, a) == MaskEntry(section, name, b) <==> EntriesLookAlike(section, name, a, b)
  {
    if a.Str? && b.Str? {
      var u, v := a.text, b.text;
      MaskShowsOnlyEnds(u, v);
      MaskShowsOnlyEnds(TrimPrefix(u, SCHEME), TrimPrefix(v, SCHEME));
      var x, y := MaskSecret(TrimPrefix(u, SCHEME)), MaskSecret(TrimPrefix(v, SCHEME));
      TrimPrefixInverse(x, SCHEME);
      TrimPrefixInverse(y, SCHEME);
      assert forall w :: MaskSecret(w)[0] == '*' || MaskSecret(w)[4] == '.';
    }
  }

  lemma MaskedFieldIff(key: string, a: Json, b: Json)
    ensures MaskSection(key, a) == MaskSection(key, b) <==> FieldsLookAlike(key, a, b)
  {
    if IsSection(key) && a.Obj? && b.Obj? {
      var m, n := MaskSection(key, a), MaskSection(key, b);
      assert m.fields.Keys == a.fields.Keys && n.fields.Keys == b.fields.Keys;
      forall k | k in a.fields && k in b.fields
        ensures m.fields[k] == n.fields[k] <==> EntriesLookAlike(key, k, a.fields[k], b.fields[k])
      {
        MaskedEntryIff(key, k, a.fields[k], b.fields[k]);
      }
      if a.fields.Keys == b.fields.Keys && forall k :: k in a.fields ==> m.fields[k] == n.fields[k] {
        assert m.fields == n.fields;
      }
    }
  }

  /** What a masked configuration gives away, and what it keeps: two configurations look the
      same masked exactly when they agree outside headers and env, and inside them in all but
      the hidden parts of secrets (the Bearer scheme of Authorization stays visible). */
  lemma MaskShowsIff(a: Document, b: Document)
    requires a.Document? && b.Document?
    ensures Mask(a) == Mask(b)
            <==> && a.fields.Keys == b.fields.Keys
                 && forall k :: k in a.fields ==> FieldsLookAlike(k, a.fields[k], b.fields[k])
  {
    var m, n := Mask(a), Mask(b);
    assert m.fields.Keys == a.fields.Keys && n.fields.Keys == b.fields.Keys;
    forall k | k in a.fields && k in b.fields
      ensures m.fields[k] == n.fields[k] <==> FieldsLookAlike(k, a.fields[k], b.fields[k])
    {
      MaskedFieldIff(k, a.fields[k], b.fields[k]);
    }
    if a.fields.Keys == b.fields.Keys && forall k :: k in a.fields ==> m.fields[k] == n.fields[k] {
      assert m.fields == n.fields;
    }
  }

  function MergeEntry(section: string, name: string, submitted: Json, stored: Json): Json {
    if !submitted.Str? || !stored.Str? then submitted
    else if IsBearer(section, name, submitted.text) && IsBearer(section, name, stored.text) then
      if TrimPrefix(submitted.text, SCHEME) == MaskSecret(TrimPrefix(stored.text, SCHEME)) then stored else submitted
    else if submitted.text == MaskSecret(stored.text) then stored
    else submitted
  }

  function MergeSection(key: string, submitted: Json, stored: Json): Json {
    if IsSection(key) && submitted.Obj? && stored.Obj?
    then Obj(map n | n in submitted.fields :: MergedField(key, submitted.fields, stored.fields, n))
    else submitted
  }

  /** mergeMaskedCredentials. */
  function Merge(submitted: Document, stored: Document): Document {
    if submitted.Nil? || stored.Nil? then submitted
    else Document(map k | k in submitted.fields ::
                    if k in stored.fields then MergeSection(k, submitted.fields[k], stored.fields[k])
                    else submitted.fields[k])
  }

  /** A stored string comes back exactly when its mask was submitted (for a bearer header,
      with the scheme kept or masked as a whole); any other submission stands as it is. */
  lemma MergedEntryIsStoredIff(section: string, name: string, submitted: Json, stored: Json)
    requires stored.Str?
    ensures MergeEntry(section, name, submitted, stored) ==
            if submitted == MaskEntry(section, name, stored) || submitted == Str(MaskSecret(stored.text))
            then stored else submitted
  {
    if submitted.Str? && IsBearer(section, name, stored.text) {
      var o := stored.text;
      TrimPrefixInverse(submitted.text, SCHEME);
      TrimPrefixInverse(MaskSecret(TrimPrefix(o, SCHEME)), SCHEME);
      assert MaskSecret(o)[0] == '*' || MaskSecret(o)[4] == '.';
    }
  }

  lemma MaskEntryMerges(section: string, name: string, stored: Json)
    ensures MergeEntry(section, name, MaskEntry(section, name, stored), stored) == stored
  {
  }

  /** A client that echoes the masked document changes nothing, for every document. */
  lemma MergeUndoesMask(d: Document)
    ensures Merge(Mask(d), d) == d
  {
    if d.Document? {
      var m := Merge(Mask(d), d);
      forall k | k in d.fields ensures m.fields[k] == d.fields[k] {
        var v := d.fields[k];
        if IsSection(k) && v.Obj? {
          forall n | n in v.fields ensures m.fields[k].fields[n] == v.fields[n] {
            MaskEntryMerges(k, n, v.fields[n]);
          }
          assert m.fields[k].fields == v.fields;
        }
      }
      assert m.fields == d.fields;
    }
  }

  /** Merging is idempotent, so a save that is sent twice equals a save. */
  lemma MergeTwice(submitted: Document, stored: Document)
    ensures Merge(Merge(submitted, stored), stored) == Merge(submitted, stored)
  {
    var m := Merge(submitted, stored);
    var mm := Merge(m, stored);
    if submitted.Document? && stored.Document? {
      forall k | k in m.fields ensures mm.fields[k] == m.fields[k] {
        if k in stored.fields && IsSection(k) && submitted.fields[k].Obj? && stored.fields[k].Obj? {
          var st := stored.fields[k];
          forall n | n in m.fields[k].fields ensures mm.fields[k].fields[n] == m.fields[k].fields[n] {
            if n in st.fields && st.fields[n].Str? {
              MergedEntryIsStoredIff(k, n, submitted.fields[k].fields[n], st.fields[n]);
              MergedEntryIsStoredIff(k, n, m.fields[k].fields[n], st.fields[n]);
            }
          }
          assert mm.fields[k].fields == m.fields[k].fields;
        }
      }
      assert mm.fields == m.fields;
    }
  }

  const SECTIONS := ["headers", "env"]

  /** The submitted configuration, edited in place. */
  class Submission {
    var doc: Document

    constructor (d: Document)
      ensures doc == d
    {
      doc := d;
    }

    method MergeMaskedCredentials(stored: Document)
      modifies this
      ensures doc == Merge(old(doc), stored)
    {
      if doc.Nil? || stored.Nil? { return; }
      ghost var before := doc;
      for i := 0 to |SECTIONS|
        invariant doc.Document? && doc.fields.Keys == before.fields.Keys
        invariant forall k :: k in before.fields && k in SECTIONS[..i] && k in stored.fields
                    ==> doc.fields[k] == MergeSection(k, before.fields[k], stored.fields[k])
        invariant forall k :: k in before.fields && !(k in SECTIONS[..i] && k in stored.fields)
                    ==> doc.fields[k] == before.fields[k]
      {
        var key := SECTIONS[i];
        assert SECTIONS[..i + 1] == SECTIONS[..i] + [key] && key !in SECTIONS[..i];
        if key in doc.fields && doc.fields[key].Obj? && key in stored.fields && stored.fields[key].Obj? {
          MergeInto(key, stored.fields[key].fields);
        }
      }
      assert SECTIONS[..|SECTIONS|] == SECTIONS;
      assert forall k :: IsSection(k) <==> k in SECTIONS;
      assert doc.fields == Merge(before, stored).fields;
    }

    method MergeInto(key: string, stored: map<string, Json>)
      requires IsSection(key) && doc.Document? && key in doc.fields && doc.fields[key].Obj?
      modifies this
      ensures doc == Document(old(doc).fields[key := MergeSection(key, old(doc).fields[key], Obj(stored))])
    {
      ghost var before := doc.fields[key].fields;
      var fields := doc.fields[key].fields;
      var rest := fields.Keys;
      while rest != {}
        invariant fields.Keys == before.Keys && rest <= before.Keys
        invariant forall n :: n in rest ==> fields[n] == before[n]
        invariant forall n :: n in before.Keys - rest ==> fields[n] == MergedField(key, before, stored, n)
        decreases |rest|
      {
        var n :| n in rest;
        rest := rest - {n};
        var submitted := fields[n];
        if submitted.Str? && n in stored && stored[n].Str? {
          var s, o := submitted.text, stored[n].text;
          var restore :=
            if IsBearer(key, n, s) && IsBearer(key, n, o)
            then TrimPrefix(s, SCHEME) == MaskSecret(TrimPrefix(o, SCHEME))
            else s == MaskSecret(o);
          if restore { fields := fields[n := stored[n]]; }
        }
      }
      assert fields == MergeSection(key, Obj(before), Obj(stored)).fields;
      doc := Document(doc.fields[key := Obj(fields)]);
    }
  }

  function MergedField(key: string, fields: map<string, Json>, stored: map<string, Json>, n: string): Json
    requires n in fields
  {
    if n in stored then MergeEntry(key, n, fields[n], stored[n]) else fields[n]
  }
}
