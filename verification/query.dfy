/**
 * The strings `generate_icebreaker` builds from its arguments before any
 * external call: the search query and the "target person" context.
 */
module SearchQuery {
  import opened Wrappers
  import opened PyStr

  const QuerySuffix := " linkedin profile"

  /**
   * The search query: the stripped name in double quotes, a space, the
   * company exactly as given, then the fixed suffix. The query itself is
   * not stripped, so an empty company leaves two spaces after the quote.
   */
  function Query(name: string, company: string): (q: string)
    ensures |q| == |Strip(name)| + |company| + 3 + |QuerySuffix|
    ensures QueryCompany(q, Strip(name)) == Some(company)
  {
    var head := "\"" + Strip(name) + "\" ";
    var q := head + company + QuerySuffix;
    assert q[..|head|] == head;
    assert q[|q| - |QuerySuffix|..] == QuerySuffix;
    assert q[|head|..|q| - |QuerySuffix|] == company;
    q
  }

  /** The context: stripped name and company joined by a space, stripped again. The company is not stripped on its own. */
  function Context(name: string, company: string): (c: string)
    ensures |c| <= |Strip(name)| + 1 + |company|
    ensures |c| > 0 ==> !IsSpace(c[0]) && !IsSpace(c[|c| - 1])
  {
    Strip(Strip(name) + " " + company)
  }

  /**
   * Recovers the company from a query when the stripped name is known: the
   * inverse of `Query` for a fixed name.
   */
  function QueryCompany(query: string, sanitizedName: string): (c: Option<string>)
    ensures c.Some? ==> |c.value| + |sanitizedName| + 3 + |QuerySuffix| == |query|
  {
    var head := "\"" + sanitizedName + "\" ";
    if |head| + |QuerySuffix| <= |query|
       && query[..|head|] == head
       && query[|query| - |QuerySuffix|..] == QuerySuffix
    then Some(query[|head|..|query| - |QuerySuffix|])
    else None
  }

  /** The company can be read back out of the query: `Query` loses nothing of it. */
  lemma QueryRoundTrip(name: string, company: string)
    ensures QueryCompany(Query(name, company), Strip(name)) == Some(company)
  {
    var head := "\"" + Strip(name) + "\" ";
    var q := Query(name, company);
    assert q == head + company + QuerySuffix;
    assert q[..|head|] == head;
    assert q[|q| - |QuerySuffix|..] == QuerySuffix;
    assert q[|head|..|q| - |QuerySuffix|] == company;
  }

  /** Two companies give the same query for a name only if they are the same company. */
  lemma QueryCompanyInjective(name: string, c1: string, c2: string)
    requires Query(name, c1) == Query(name, c2)
    ensures c1 == c2
  {
    QueryRoundTrip(name, c1);
    QueryRoundTrip(name, c2);
  }

  /** Whitespace around the name changes neither the query nor the context. */
  lemma NamePaddingIrrelevant(a: string, name: string, b: string, company: string)
    requires AllSpace(a) && AllSpace(b)
    ensures Query(a + name + b, company) == Query(name, company)
    ensures Context(a + name + b, company) == Context(name, company)
  {
    StripPadded(a, name, b);
  }

  /** A name with no outer whitespace is quoted verbatim. */
  lemma CleanNameQuery(name: string, company: string)
    requires name == "" || (!IsSpace(name[0]) && !IsSpace(name[|name| - 1]))
    ensures Query(name, company) == "\"" + name + "\" " + company + QuerySuffix
  {
    assert name[..0] == [] && name[|name|..] == [] && name[0..|name|] == name;
    StripUnique(name, 0, |name|);
  }

  /** With no company the query still carries the separating space, so two spaces follow the name. */
  lemma EmptyCompanyQuery(name: string)
    ensures Query(name, "") == "\"" + Strip(name) + "\"  linkedin profile"
  {
  }

  /** With no company the context is just the stripped name. */
  lemma EmptyCompanyContext(name: string)
    ensures Context(name, "") == Strip(name)
  {
    var n := Strip(name);
    assert n + " " + "" == "" + n + " ";
    assert AllSpace(" ");
    StripPadded("", n, " ");
    StripIdempotent(name);
  }

  /**
   * When both parts are non-blank and the company carries no outer
   * whitespace, the context is exactly "name company".
   */
  lemma ContextJoins(name: string, company: string)
    requires Strip(name) != ""
    requires company != "" && !IsSpace(company[0]) && !IsSpace(company[|company| - 1])
    ensures Context(name, company) == Strip(name) + " " + company
  {
    var s := Strip(name) + " " + company;
    assert s[..0] == [] && s[|s|..] == [];
    assert s[0..|s|] == s;
    StripUnique(s, 0, |s|);
  }

  /** A blank name leaves only the stripped company as context. */
  lemma BlankNameContext(name: string, company: string)
    requires Strip(name) == ""
    ensures Context(name, company) == Strip(company)
  {
    assert Strip(name) + " " + company == " " + company + "";
    assert AllSpace(" ");
    StripPadded(" ", company, "");
  }
}
