/** The search and selection rules of `components/BankSelectionModal.tsx`. */
module BankSelection {
  import opened Js
  import opened Seqs
  import opened Strings
  import opened Banks

  /** The search predicate: the query occurs in the lower-cased name or short name
      (compared with the lower-cased query), or, with case kept, in the code. */
  predicate MatchesQuery(bank: Bank, query: string) {
    || Contains(Lower(bank.name), Lower(query))
    || Contains(Lower(bank.shortName), Lower(query))
    || Contains(bank.code, query)
  }

  /** `filteredBanks`: every bank for a blank query, else the matching ones. Only the
      blank test trims; the matching uses the query as typed. */
  function FilterBanks(banks: seq<Bank>, query: string): (r: seq<Bank>)
    ensures Trim(query) == "" ==> r == banks
    ensures IsSubsequence(r, banks)
    ensures Trim(query) != "" ==> forall b :: b in r <==> b in banks && MatchesQuery(b, query)
  {
    if Trim(query) == "" then
      SubsequenceRefl(banks);
      banks
    else
      FilterIsSubsequence(banks, b => MatchesQuery(b, query));
      Filter(banks, b => MatchesQuery(b, query))
  }

  /** The search keeps every copy of a bank it shows: a bank listed twice and matching is
      shown twice. */
  lemma FilterBanksMultiplicity(banks: seq<Bank>, query: string, b: Bank)
    ensures multiset(FilterBanks(banks, query))[b]
      == if Trim(query) == "" || MatchesQuery(b, query) then multiset(banks)[b] else 0
  {
    if Trim(query) != "" {
      FilterMultiplicity(banks, x => MatchesQuery(x, query), b);
    }
  }

  /** A query that is blank apart from surrounding white space shows every bank. */
  lemma BlankQueryShowsAll(banks: seq<Bank>, query: string)
    requires forall i :: 0 <= i < |query| ==> IsSpace(query[i])
    ensures FilterBanks(banks, query) == banks
  {
    TrimEmptyIff(query);
  }

  /** A piece that contains a character puts that character in the text. */
  lemma ContainsChar(s: string, t: string, k: nat)
    requires Contains(s, t) && k < |t|
    ensures t[k] in s
  {
    ContainsIff(s, t);
    var i :| OccursAt(s, t, i);
    assert s[i..i + |t|][k] == t[k];
    assert s[i + k] == t[k];
  }

  /** The query is not trimmed for matching: a query with a space in it, such as "gt ",
      matches only a bank whose name, short name or code has a space. */
  lemma SpacedQueryNeedsSpacedBank(bank: Bank, query: string, k: nat)
    requires k < |query| && query[k] == ' ' && MatchesQuery(bank, query)
    ensures ' ' in bank.name || ' ' in bank.shortName || ' ' in bank.code
  {
    if Contains(Lower(bank.name), Lower(query)) {
      ContainsChar(Lower(bank.name), Lower(query), k);
      var j :| 0 <= j < |bank.name| && Lower(bank.name)[j] == ' ';
      assert bank.name[j] == ' ';
    } else if Contains(Lower(bank.shortName), Lower(query)) {
      ContainsChar(Lower(bank.shortName), Lower(query), k);
      var j :| 0 <= j < |bank.shortName| && Lower(bank.shortName)[j] == ' ';
      assert bank.shortName[j] == ' ';
    } else {
      ContainsChar(bank.code, query, k);
    }
  }

  /** `selectedBank?.code === item.code`. */
  predicate IsSelected(selected: Option<Bank>, bank: Bank) {
    selected.Some? && selected.value.code == bank.code
  }

  /** With distinct codes in the list, at most one row is shown as selected, and it is the
      row with the selected bank's code. */
  lemma AtMostOneSelected(banks: seq<Bank>, selected: Option<Bank>, i: nat, j: nat)
    requires forall p, q :: 0 <= p < q < |banks| ==> banks[p].code != banks[q].code
    requires i < |banks| && j < |banks| && IsSelected(selected, banks[i]) && IsSelected(selected, banks[j])
    ensures i == j && banks[i].code == selected.value.code
  {
  }

  const PlaceholderPrefix: string := "https://via.placeholder.com/40x40/00A651/FFFFFF?text="

  /** `getFallbackLogo`: the placeholder URL with the first two characters of the name,
      upper-cased. */
  function FallbackLogo(name: string): (url: string)
    ensures PlaceholderPrefix <= url
    ensures |url| == |PlaceholderPrefix| + (if |name| < 2 then |name| else 2)
    ensures forall i :: |PlaceholderPrefix| <= i < |url| ==>
      url[i] == UpperChar(name[i - |PlaceholderPrefix|]) && !IsLowerAscii(url[i])
  {
    PlaceholderPrefix + Upper(Take(name, 2))
  }

  /** Names that agree on their first two characters, up to letter case, get the same
      placeholder. */
  lemma FallbackLogoFirstTwo(a: string, b: string)
    requires |a| >= 2 && |b| >= 2
    requires UpperChar(a[0]) == UpperChar(b[0]) && UpperChar(a[1]) == UpperChar(b[1])
    ensures FallbackLogo(a) == FallbackLogo(b)
  {
    var n := |PlaceholderPrefix|;
    assert FallbackLogo(a)[..n] == PlaceholderPrefix == FallbackLogo(b)[..n];
    assert FallbackLogo(a)[n] == FallbackLogo(b)[n];
    assert FallbackLogo(a)[n + 1] == FallbackLogo(b)[n + 1];
  }
}
