/** Base64 images in workflow outputs (backend/app/api/ai_assistant.py): collecting them for the
    browser, and blanking them out of what the model is shown. */
module Images {
  import opened Json
  import opened FirstSeen

  const IMAGE_PLACEHOLDER := "[image omitted - see workflow execution in UI]"
  const DATA_IMAGE := "data:image/"

  /** `_is_base64_image` */
  predicate IsBase64Image(s: string) {
    |s| >= 100 && (DATA_IMAGE <= s || "/9j/" <= s || "iVBOR" <= s)
  }

  function UrlOf(s: string): string {
    if DATA_IMAGE <= s then s else "data:image/png;base64," + s
  }

  /** Long enough, and starting as an image URL, a JPEG or a PNG does. */
  lemma ImageIff(s: string)
    ensures IsBase64Image(s) <==> |s| > 99 && (s[..11] == "data:image/" || s[..4] == "/9j/" || s[..5] == "iVBOR")
  {
    assert forall head: string | |head| <= |s| :: head <= s <==> s[..|head|] == head;
  }

  /** An image's URL is an image URL that ends with the image, is the image itself exactly when
      that is a URL already, and belongs to no other bare image. */
  lemma UrlOfImage(s: string, t: string)
    ensures var url := UrlOf(s);
            && DATA_IMAGE <= url && |s| <= |url| && url[|url| - |s|..] == s
            && (url == s <==> DATA_IMAGE <= s)
            && UrlOf(url) == url
            && (IsBase64Image(s) ==> IsBase64Image(url))
            && (UrlOf(t) == url && (DATA_IMAGE <= s <==> DATA_IMAGE <= t) ==> t == s)
  {
    var png := "data:image/png;base64,";
    assert DATA_IMAGE <= png && DATA_IMAGE <= png + s && DATA_IMAGE <= png + t;
    assert (png + s)[|png|..] == s && (png + t)[|png|..] == t;
  }

  /** The image leaves of a tree as URLs, in the order a reader meets them. */
  function Urls(o: Json): seq<string>
    decreases o
  {
    match o
    case Str(s) => if IsBase64Image(s) then [UrlOf(s)] else []
    case Obj(entries) => UrlsOfEntries(entries)
    case Arr(items) => UrlsOfItems(items)
    case _ => []
  }

  function UrlsOfItems(items: seq<Json>): seq<string>
    decreases items
  {
    if items == [] then [] else Urls(items[0]) + UrlsOfItems(items[1..])
  }

  function UrlsOfEntries(entries: seq<Entry>): seq<string>
    decreases entries
  {
    if entries == [] then [] else Urls(entries[0].value) + UrlsOfEntries(entries[1..])
  }

  /** The string stands somewhere in the tree as a value. */
  ghost predicate Holds(o: Json, s: string)
    decreases o
  {
    match o
    case Str(t) => t == s
    case Obj(entries) => exists i :: 0 <= i < |entries| && Holds(entries[i].value, s)
    case Arr(items) => exists i :: 0 <= i < |items| && Holds(items[i], s)
    case _ => false
  }

  /** The URLs of a tree are those of the images that stand anywhere in it. */
  lemma {:induction false} UrlsIff(o: Json, url: string)
    ensures url in Urls(o) <==> exists s :: Holds(o, s) && IsBase64Image(s) && UrlOf(s) == url
    decreases o
  {
    match o
    case Str(s) => assert Holds(o, s);
    case Arr(items) =>
      UrlsOfItemsIff(items, url);
      forall i | 0 <= i < |items|
        ensures url in Urls(items[i]) <==> exists s :: Holds(items[i], s) && IsBase64Image(s) && UrlOf(s) == url
      { UrlsIff(items[i], url); }
      if s :| Holds(o, s) && IsBase64Image(s) && UrlOf(s) == url {
        var i :| 0 <= i < |items| && Holds(items[i], s);
        assert url in Urls(items[i]);
      }
      if i :| 0 <= i < |items| && url in Urls(items[i]) {
        var s :| Holds(items[i], s) && IsBase64Image(s) && UrlOf(s) == url;
        assert Holds(o, s);
      }
    case Obj(entries) =>
      UrlsOfEntriesIff(entries, url);
      forall i | 0 <= i < |entries|
        ensures url in Urls(entries[i].value) <==> exists s :: Holds(entries[i].value, s) && IsBase64Image(s) && UrlOf(s) == url
      { UrlsIff(entries[i].value, url); }
      if s :| Holds(o, s) && IsBase64Image(s) && UrlOf(s) == url {
        var i :| 0 <= i < |entries| && Holds(entries[i].value, s);
        assert url in Urls(entries[i].value);
      }
      if i :| 0 <= i < |entries| && url in Urls(entries[i].value) {
        var s :| Holds(entries[i].value, s) && IsBase64Image(s) && UrlOf(s) == url;
        assert Holds(o, s);
      }
    case _ =>
  }

  lemma {:induction false} UrlsOfItemsIff(items: seq<Json>, url: string)
    ensures url in UrlsOfItems(items) <==> exists i :: 0 <= i < |items| && url in Urls(items[i])
  {
    if items != [] {
      UrlsOfItemsIff(items[1..], url);
      if i :| 0 <= i < |items| - 1 && url in Urls(items[1..][i]) { assert url in Urls(items[i + 1]); }
      if i :| 0 <= i < |items| && url in Urls(items[i]) {
        if i > 0 { assert url in Urls(items[1..][i - 1]); }
      }
    }
  }

  lemma {:induction false} UrlsOfEntriesIff(entries: seq<Entry>, url: string)
    ensures url in UrlsOfEntries(entries) <==> exists i :: 0 <= i < |entries| && url in Urls(entries[i].value)
  {
    if entries != [] {
      UrlsOfEntriesIff(entries[1..], url);
      if i :| 0 <= i < |entries| - 1 && url in Urls(entries[1..][i].value) { assert url in Urls(entries[i + 1].value); }
      if i :| 0 <= i < |entries| && url in Urls(entries[i].value) {
        if i > 0 { assert url in Urls(entries[1..][i - 1].value); }
      }
    }
  }

  /** The nested `_collect` with the two collections it shares. */
  class Collector {
    var out: seq<string>
    var seen: set<string>
    ghost var met: seq<string>

    ghost predicate Valid()
      reads this
    {
      out == Firsts(met) && forall url :: url in seen <==> url in out
    }

    constructor ()
      ensures Valid() && met == []
    {
      out, seen, met := [], {}, [];
    }

    method CollectString(s: string)
      requires Valid()
      modifies this
      ensures Valid() && met == old(met) + Urls(Str(s))
    {
      if IsBase64Image(s) {
        var url := UrlOf(s);
        FirstsAppend(met, url);
        met := met + [url];
        if url !in seen {
          seen := seen + {url};
          out := out + [url];
        }
      } else {
        assert met + [] == met;
      }
    }

    method Collect(o: Json)
      requires Valid()
      modifies this
      ensures Valid() && met == old(met) + Urls(o)
      decreases o
    {
      match o
      case Str(s) => CollectString(s);
      case Obj(entries) => CollectEntries(entries);
      case Arr(items) => CollectItems(items);
      case _ => assert met + [] == met;
    }

    method CollectItems(items: seq<Json>)
      requires Valid()
      modifies this
      ensures Valid() && met == old(met) + UrlsOfItems(items)
      decreases items
    {
      for i := 0 to |items|
        invariant Valid() && met == old(met) + UrlsOfItems(items[..i])
      {
        UrlsOfItemsAppend(items[..i], items[i]);
        assert items[..i + 1] == items[..i] + [items[i]];
        Collect(items[i]);
      }
      assert items[..|items|] == items;
    }

    method CollectEntries(entries: seq<Entry>)
      requires Valid()
      modifies this
      ensures Valid() && met == old(met) + UrlsOfEntries(entries)
      decreases entries
    {
      for i := 0 to |entries|
        invariant Valid() && met == old(met) + UrlsOfEntries(entries[..i])
      {
        UrlsOfEntriesAppend(entries[..i], entries[i]);
        assert entries[..i + 1] == entries[..i] + [entries[i]];
        Collect(entries[i].value);
      }
      assert entries[..|entries|] == entries;
    }
  }

  lemma {:induction false} UrlsOfItemsAppend(items: seq<Json>, o: Json)
    ensures UrlsOfItems(items + [o]) == UrlsOfItems(items) + Urls(o)
  {
    if items == [] {
      assert items + [o] == [o];
      assert UrlsOfItems([o]) == Urls(o) + UrlsOfItems([]);
    } else {
      assert (items + [o])[1..] == items[1..] + [o];
      UrlsOfItemsAppend(items[1..], o);
    }
  }

  lemma {:induction false} UrlsOfEntriesAppend(entries: seq<Entry>, e: Entry)
    ensures UrlsOfEntries(entries + [e]) == UrlsOfEntries(entries) + Urls(e.value)
  {
    if entries == [] {
      assert entries + [e] == [e];
      assert UrlsOfEntries([e]) == Urls(e.value) + UrlsOfEntries([]);
    } else {
      assert (entries + [e])[1..] == entries[1..] + [e];
      UrlsOfEntriesAppend(entries[1..], e);
    }
  }

  /** `_extract_images_from_outputs`: every image once, at its first occurrence in pre-order. */
  method ExtractImages(o: Json) returns (out: seq<string>)
    ensures out == Firsts(Urls(o))
    ensures forall url :: url in out <==> url in Urls(o)
    ensures forall url :: url in out <==> exists s :: Holds(o, s) && IsBase64Image(s) && UrlOf(s) == url
    ensures forall i, j | 0 <= i < j < |out| :: FirstIndex(Urls(o), out[i]) < FirstIndex(Urls(o), out[j])
  {
    var c := new Collector();
    c.Collect(o);
    out := c.out;
    assert [] + Urls(o) == Urls(o);
    forall url ensures url in out <==> url in Urls(o) { SameElements(Urls(o), url); }
    forall url ensures url in out <==> exists s :: Holds(o, s) && IsBase64Image(s) && UrlOf(s) == url {
      UrlsIff(o, url);
    }
    forall i, j | 0 <= i < j < |out| ensures FirstIndex(Urls(o), out[i]) < FirstIndex(Urls(o), out[j]) {
      InOrderOfFirstOccurrence(Urls(o), i, j);
    }
  }

  // ---------------------------------------------------------------- blanking

  /** `_sanitize_for_llm_context` */
  function Sanitized(o: Json): Json
    decreases o
  {
    match o
    case Str(s) => if IsBase64Image(s) then Str(IMAGE_PLACEHOLDER) else o
    case Obj(entries) => Obj(SanitizedEntries(entries))
    case Arr(items) => Arr(SanitizedItems(items))
    case _ => o
  }

  function SanitizedItems(items: seq<Json>): seq<Json>
    decreases items
  {
    if items == [] then [] else [Sanitized(items[0])] + SanitizedItems(items[1..])
  }

  function SanitizedEntries(entries: seq<Entry>): seq<Entry>
    decreases entries
  {
    if entries == [] then []
    else [Entry(entries[0].key, Sanitized(entries[0].value))] + SanitizedEntries(entries[1..])
  }

  /** Same tree, same keys, same leaves, except that a string may have become the placeholder. */
  ghost predicate SameShape(a: Json, b: Json)
    decreases a
  {
    match a
    case Str(s) => b == a || b == Str(IMAGE_PLACEHOLDER)
    case Obj(es) => b.Obj? && SameShapeEntries(es, b.entries)
    case Arr(xs) => b.Arr? && SameShapeItems(xs, b.items)
    case _ => b == a
  }

  ghost predicate SameShapeItems(a: seq<Json>, b: seq<Json>)
    decreases a
  {
    |a| == |b| && (a == [] || (SameShape(a[0], b[0]) && SameShapeItems(a[1..], b[1..])))
  }

  ghost predicate SameShapeEntries(a: seq<Entry>, b: seq<Entry>)
    decreases a
  {
    |a| == |b| && (a == [] || (a[0].key == b[0].key && SameShape(a[0].value, b[0].value) && SameShapeEntries(a[1..], b[1..])))
  }

  /** Nothing sanitised still holds an image; a tree is left alone exactly when it held none;
      sanitising again changes nothing; and only strings change. */
  lemma {:induction false} SanitizedHoldsNoImage(o: Json)
    ensures Urls(Sanitized(o)) == []
    ensures Sanitized(o) == o <==> Urls(o) == []
    ensures Sanitized(Sanitized(o)) == Sanitized(o)
    ensures SameShape(o, Sanitized(o))
    decreases o
  {
    match o
    case Obj(entries) => SanitizedEntriesHoldNone(entries);
    case Arr(items) => SanitizedItemsHoldNone(items);
    case Str(s) =>
      assert !IsBase64Image(IMAGE_PLACEHOLDER);
    case _ =>
  }

  lemma {:induction false} SanitizedItemsHoldNone(items: seq<Json>)
    ensures UrlsOfItems(SanitizedItems(items)) == []
    ensures SanitizedItems(items) == items <==> UrlsOfItems(items) == []
    ensures SanitizedItems(SanitizedItems(items)) == SanitizedItems(items)
    ensures SameShapeItems(items, SanitizedItems(items))
    decreases items
  {
    if items != [] {
      SanitizedHoldsNoImage(items[0]);
      SanitizedItemsHoldNone(items[1..]);
      var out := SanitizedItems(items);
      assert out[0] == Sanitized(items[0]) && out[1..] == SanitizedItems(items[1..]);
      assert items == [items[0]] + items[1..];
    }
  }

  lemma {:induction false} SanitizedEntriesHoldNone(entries: seq<Entry>)
    ensures UrlsOfEntries(SanitizedEntries(entries)) == []
    ensures SanitizedEntries(entries) == entries <==> UrlsOfEntries(entries) == []
    ensures SanitizedEntries(SanitizedEntries(entries)) == SanitizedEntries(entries)
    ensures SameShapeEntries(entries, SanitizedEntries(entries))
    decreases entries
  {
    if entries != [] {
      SanitizedHoldsNoImage(entries[0].value);
      SanitizedEntriesHoldNone(entries[1..]);
      var out := SanitizedEntries(entries);
      assert out[0] == Entry(entries[0].key, Sanitized(entries[0].value)) && out[1..] == SanitizedEntries(entries[1..]);
      assert entries == [entries[0]] + entries[1..];
    }
  }
}
