/** The client-list search box: a client is shown when its lower-cased
    name contains the lower-cased search term, or its phone contains the
    term as typed. Lower-casing is modelled on ASCII letters only. */
module Search {
  import opened Records
  import opened Seqs

  predicate IsUpper(c: char) { 'A' <= c <= 'Z' }

  function LowerChar(c: char): char
  {
    if IsUpper(c) then (c as int + 32) as char else c
  }

  /** `toLowerCase` restricted to ASCII: upper-case letters become their
      lower-case counterparts, every other character is kept. */
  function Lower(s: string): (r: string)
    ensures |r| == |s|
    ensures forall i :: 0 <= i < |s| ==> !IsUpper(r[i])
    ensures forall i :: 0 <= i < |s| && !IsUpper(s[i]) ==> r[i] == s[i]
    ensures forall i :: 0 <= i < |s| && IsUpper(s[i]) ==> r[i] as int == s[i] as int + 32
    decreases |s|
  {
    if s == [] then [] else [LowerChar(s[0])] + Lower(s[1..])
  }

  /** `hay.includes(needle)`: `needle` occurs at some position of `hay`. */
  predicate Contains(hay: string, needle: string)
    decreases |hay|
  {
    |needle| <= |hay| && (hay[..|needle|] == needle || Contains(hay[1..], needle))
  }

  /** `needle` is the slice of `hay` that starts at offset `k`. */
  predicate OccursAt(hay: string, needle: string, k: int)
  {
    0 <= k && k + |needle| <= |hay| && hay[k..k + |needle|] == needle
  }

  /** `Contains` holds exactly when `needle` occurs at some offset of `hay`. */
  lemma {:induction false} ContainsAt(hay: string, needle: string)
    ensures Contains(hay, needle) <==> exists k :: OccursAt(hay, needle, k)
    decreases |hay|
  {
    if |needle| <= |hay| {
      if hay[..|needle|] == needle {
        assert OccursAt(hay, needle, 0);
      } else {
        ContainsAt(hay[1..], needle);
        if exists k :: OccursAt(hay, needle, k) {
          var k :| OccursAt(hay, needle, k);
          assert k != 0;
          assert hay[1..][k - 1..k - 1 + |needle|] == hay[k..k + |needle|];
          assert OccursAt(hay[1..], needle, k - 1);
        }
        if Contains(hay[1..], needle) {
          var k :| OccursAt(hay[1..], needle, k);
          assert hay[k + 1..k + 1 + |needle|] == hay[1..][k..k + |needle|];
          assert OccursAt(hay, needle, k + 1);
        }
      }
    }
  }

  /** The empty term is contained in every string. */
  lemma ContainsEmpty(hay: string)
    ensures Contains(hay, "")
  {
    assert hay[..0] == "";
  }

  /** The search predicate of one client. */
  predicate Matches(c: Client, term: string)
  {
    Contains(Lower(c.name), Lower(term)) || Contains(c.phone, term)
  }

  /** Every client matches the empty term. */
  lemma EmptyTermMatches(clients: seq<Client>)
    ensures forall i :: 0 <= i < |clients| ==> Matches(clients[i], "")
  {
    assert Lower("") == "";
    forall i | 0 <= i < |clients| ensures Matches(clients[i], "") {
      ContainsEmpty(Lower(clients[i].name));
    }
  }

  /** The clients shown for a search term: exactly the matching ones, each
      as often as in the list, in list order; the empty term shows every
      client. */
  function SearchClients(clients: seq<Client>, term: string): (r: seq<Client>)
    ensures IsSubsequence(r, clients)
    ensures forall i :: 0 <= i < |r| ==> Matches(r[i], term)
    ensures forall i :: 0 <= i < |clients| && Matches(clients[i], term) ==> clients[i] in r
    ensures forall c: Client :: multiset(r)[c] == if Matches(c, term) then multiset(clients)[c] else 0
    ensures term == "" ==> r == clients
  {
    FilterIsSubsequence(clients, c => Matches(c, term));
    FilterCounts(clients, c => Matches(c, term));
    EmptyTermMatches(clients);
    FilterKeepsAll(clients, c => Matches(c, term));
    Filter(clients, c => Matches(c, term))
  }
}
