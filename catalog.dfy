/**
 * The catalog view: which of the two fetched catalogs the active tab shows,
 * and the search filter over its entries.
 */
module Catalog {
  import opened JsObject

  /** A product as the catalog service reports it; `available` is 0 or 1. */
  datatype Product = Product(available: int, price: real, images: seq<string>)

  /** Product name to product, in the order the service sent them. */
  type ProductsData = Obj<Product>

  /** The tab that shows the whole catalog; any other tab shows the available products. */
  const AllTab := "all"

  /** Lower-casing of one character (letters A to Z only). */
  function LowerChar(c: char): (r: char)
    ensures 'A' <= c <= 'Z' ==> 'a' <= r <= 'z' && r as int - c as int == 32
    ensures !('A' <= c <= 'Z') ==> r == c
  {
    if 'A' <= c <= 'Z' then (c as int + 32) as char else c
  }

  /** `s.toLowerCase()`. */
  function Lower(s: string): (r: string)
    ensures |r| == |s|
    ensures forall i :: 0 <= i < |s| ==> r[i] == LowerChar(s[i])
  {
    if s == [] then [] else [LowerChar(s[0])] + Lower(s[1..])
  }

  /** `t` occurs in `s` starting at offset `i`. */
  ghost predicate OccursAt(s: string, t: string, i: int)
  {
    0 <= i && i + |t| <= |s| && s[i..i + |t|] == t
  }

  /** An occurrence in `s[1..]` is an occurrence in `s` one position further on. */
  lemma OccursShift(s: string, t: string)
    requires s != []
    ensures (exists i :: OccursAt(s[1..], t, i)) <==> (exists i :: 0 < i && OccursAt(s, t, i))
  {
    if exists i :: OccursAt(s[1..], t, i) {
      var i :| OccursAt(s[1..], t, i);
      assert s[i + 1..i + 1 + |t|] == s[1..][i..i + |t|];
      assert OccursAt(s, t, i + 1);
    }
    if exists i :: 0 < i && OccursAt(s, t, i) {
      var i :| 0 < i && OccursAt(s, t, i);
      assert s[1..][i - 1..i - 1 + |t|] == s[i..i + |t|];
      assert OccursAt(s[1..], t, i - 1);
    }
  }

  /** `s.includes(t)`: true exactly when `t` occurs in `s` at some offset. */
  function Includes(s: string, t: string): (r: bool)
    ensures r <==> exists i :: OccursAt(s, t, i)
    decreases |s|
  {
    assert OccursAt(s, t, 0) <==> |t| <= |s| && s[..|t|] == t;
    if |t| <= |s| && s[..|t|] == t then true
    else if |t| < |s| then
      OccursShift(s, t);
      Includes(s[1..], t)
    else false
  }

  /**
   * The search predicate, case-insensitive: the lower-cased term occurs in
   * the lower-cased name. The empty term matches every name.
   */
  predicate Matches(name: string, searchTerm: string)
    ensures Matches(name, searchTerm) ==> exists i :: OccursAt(Lower(name), Lower(searchTerm), i)
    ensures (exists i :: OccursAt(Lower(name), Lower(searchTerm), i)) ==> Matches(name, searchTerm)
    ensures searchTerm == "" ==> Matches(name, searchTerm)
  {
    var s, t := Lower(name), Lower(searchTerm);
    assert searchTerm == "" ==> t == [] && OccursAt(s, t, 0);
    Includes(s, t)
  }

  /**
   * `Object.entries(products).filter(([name]) => Matches(name, searchTerm))`:
   * exactly the matching entries, in their original order; an empty term
   * keeps every entry.
   */
  function Filter(entries: seq<Entry<Product>>, searchTerm: string): (r: seq<Entry<Product>>)
    ensures forall e :: e in r <==> e in entries && Matches(e.0, searchTerm)
    ensures Subsequence(r, entries)
    ensures searchTerm == "" ==> r == entries
  {
    if entries == [] then []
    else
      var rest := Filter(entries[1..], searchTerm);
      assert entries == [entries[0]] + entries[1..];
      if Matches(entries[0].0, searchTerm) then
        assert ([entries[0]] + rest)[0] == entries[0] && ([entries[0]] + rest)[1..] == rest;
        [entries[0]] + rest
      else rest
  }

  /** Terms that lower-case alike filter alike. */
  lemma {:induction false} FilterIgnoresCase(entries: seq<Entry<Product>>, term1: string, term2: string)
    requires Lower(term1) == Lower(term2)
    ensures Filter(entries, term1) == Filter(entries, term2)
  {
    if entries != [] {
      FilterIgnoresCase(entries[1..], term1, term2);
    }
  }

  /** Searching for "milk" and for "MILK" shows the same products. */
  lemma FilterMilkExample(entries: seq<Entry<Product>>)
    ensures Filter(entries, "milk") == Filter(entries, "MILK")
  {
    assert Lower("MILK") == "milk";
    FilterIgnoresCase(entries, "milk", "MILK");
  }
}
