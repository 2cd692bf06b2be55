/** The roster search (src/pages/PatientsPage.tsx): the patients whose name
    or id contains the query, compared after `toLowerCase`. */
module PatientSearch {
  import opened Strings
  import opened Seqs
  import opened Types

  /** The test the roster is filtered with. */
  predicate Matches(p: Patient, query: string)
    ensures Matches(p, query) ==> |query| <= |p.name| || |query| <= |p.id|
  {
    var q := ToLowerCase(query);
    Includes(ToLowerCase(p.name), q) || Includes(ToLowerCase(p.id), q)
  }

  function MatchesQuery(query: string): Patient -> bool {
    (p: Patient) => Matches(p, query)
  }

  /** `filteredPatients`. */
  function FilteredPatients(patients: seq<Patient>, query: string): (shown: seq<Patient>)
    ensures |shown| <= |patients|
    ensures forall p :: p in shown ==> p in patients && Matches(p, query)
  {
    Filter(patients, MatchesQuery(query))
  }

  /** The rows shown are the roster's patients that match, in roster order,
      each as often as it is in the roster. */
  lemma SearchContents(patients: seq<Patient>, query: string)
    ensures IsSubsequence(FilteredPatients(patients, query), patients)
    ensures forall p :: p in FilteredPatients(patients, query) <==> p in patients && Matches(p, query)
    ensures forall p ::
      multiset(FilteredPatients(patients, query))[p] == (if Matches(p, query) then multiset(patients)[p] else 0)
  {
    FilterIsSubsequence(patients, MatchesQuery(query));
    forall p ensures p in FilteredPatients(patients, query) <==> p in patients && Matches(p, query) {
      FilterMembership(patients, MatchesQuery(query), p);
    }
    forall p ensures multiset(FilteredPatients(patients, query))[p]
      == (if Matches(p, query) then multiset(patients)[p] else 0) {
      FilterMultiplicity(patients, MatchesQuery(query), p);
    }
  }

  /** Every string contains the empty string. */
  lemma IncludesEmpty(s: string)
    ensures Includes(s, "")
  {
    assert StartsWith(s, "");
  }

  /** Before anything is typed the whole roster is shown. */
  lemma EmptyQueryShowsAll(patients: seq<Patient>)
    ensures FilteredPatients(patients, "") == patients
  {
    forall i | 0 <= i < |patients| ensures Matches(patients[i], "") {
      IncludesEmpty(ToLowerCase(patients[i].name));
    }
    FilterKeepsAll(patients, MatchesQuery(""));
  }

  /** The search ignores the case of the query (for ASCII letters). */
  lemma QueryCaseIgnored(patients: seq<Patient>, query: string)
    ensures FilteredPatients(patients, ToUpperCase(query)) == FilteredPatients(patients, query)
    ensures FilteredPatients(patients, ToLowerCase(query)) == FilteredPatients(patients, query)
  {
    LowerForgetsCase(query);
    FilterCongruent(patients, MatchesQuery(ToUpperCase(query)), MatchesQuery(query));
    FilterCongruent(patients, MatchesQuery(ToLowerCase(query)), MatchesQuery(query));
  }

  /** A patient matching a query matches every part of it. */
  lemma MatchNarrows(p: Patient, longer: string, shorter: string)
    requires Includes(longer, shorter)
    requires Matches(p, longer)
    ensures Matches(p, shorter)
  {
    IncludesLowered(longer, shorter);
    var q1, q2 := ToLowerCase(longer), ToLowerCase(shorter);
    if Includes(ToLowerCase(p.name), q1) {
      IncludesTransitive(ToLowerCase(p.name), q1, q2);
    } else {
      IncludesTransitive(ToLowerCase(p.id), q1, q2);
    }
  }

  /** Typing more narrows the list: the rows for a query are among the rows
      for any part of it, in the same order. */
  lemma TypingNarrows(patients: seq<Patient>, longer: string, shorter: string)
    requires Includes(longer, shorter)
    ensures IsSubsequence(FilteredPatients(patients, longer), FilteredPatients(patients, shorter))
  {
    forall p | p in patients && MatchesQuery(longer)(p) ensures MatchesQuery(shorter)(p) {
      MatchNarrows(p, longer, shorter);
    }
    FilterMonotone(patients, MatchesQuery(longer), MatchesQuery(shorter));
  }

  /** Searching for a patient's full id (in any case) finds that patient. */
  lemma FoundById(patients: seq<Patient>, p: Patient)
    requires p in patients
    ensures p in FilteredPatients(patients, p.id)
    ensures p in FilteredPatients(patients, ToUpperCase(p.id))
  {
    var id := ToLowerCase(p.id);
    assert StartsWith(id, id);
    FilterMembership(patients, MatchesQuery(p.id), p);
    QueryCaseIgnored(patients, p.id);
  }
}
