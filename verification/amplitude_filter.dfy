/** The Amplitude span filters: predicates that decide whether a finished
    span is skipped by the exporter, and their disjunction over a list. */
module AmplitudeFilter {
  import opened Prelude
  import opened Fields
  import opened AmplitudeEncoder
  import Text

  /** The filters the package provides. */
  datatype Filter =
    | UserFilter
    | InfoLevelFilter
    | ContainsMessageFilter(message: string)

  /** `IsFiltered` of one filter: true means the span is skipped. */
  function IsFiltered(f: Filter, s: SpanData): (r: bool)
    ensures f.UserFilter? ==> (r <==> s.attributes.None? || GetUserId(s) == "")
    ensures f.InfoLevelFilter? ==>
      (r <==> s.attributes.None? || ("level" in Attrs(s) && Attrs(s)["level"] == StringAttr("debug")))
    ensures f.ContainsMessageFilter? ==>
      (r <==> |s.annotations| == 0 || !Text.Contains(s.annotations[0], f.message))
  {
    match f
    case UserFilter => s.attributes.None? || GetUserId(s) == ""
    case InfoLevelFilter =>
      s.attributes.None? || ("level" in s.attributes.value && s.attributes.value["level"] == StringAttr("debug"))
    case ContainsMessageFilter(message) =>
      |s.annotations| < 1 || !Text.Search(s.annotations[0], message)
  }

  /** `Filters.IsFiltered`: the filters are tried in order and the first one
      that skips the span decides. */
  function AnyFiltered(fs: seq<Filter>, s: SpanData): (r: bool)
    ensures r <==> exists i | 0 <= i < |fs| :: IsFiltered(fs[i], s)
    decreases |fs|
  {
    if |fs| == 0 then false
    else if IsFiltered(fs[0], s) then true
    else
      var rest := AnyFiltered(fs[1..], s);
      assert forall i | 1 <= i < |fs| :: fs[i] == fs[1..][i - 1];
      rest
  }

  /** `DefaultFilters`: the user filter, then the info-level filter. */
  const DefaultFilters: seq<Filter> := [UserFilter, InfoLevelFilter]

  /** The default filters let a span through exactly when it has attributes,
      a user id, and a level other than "debug". */
  lemma DefaultFiltersPass(s: SpanData)
    ensures !AnyFiltered(DefaultFilters, s) <==>
      s.attributes.Some? && GetUserId(s) != ""
      && !("level" in Attrs(s) && Attrs(s)["level"] == StringAttr("debug"))
  {
    assert DefaultFilters[0] == UserFilter && DefaultFilters[1] == InfoLevelFilter;
  }

  /** An empty message filter passes every span that has an annotation. */
  lemma EmptyMessagePassesAnnotated(s: SpanData)
    requires |s.annotations| > 0
    ensures !IsFiltered(ContainsMessageFilter(""), s)
  {
    Text.ContainsEmpty(s.annotations[0]);
  }

  /** Only the first annotation is read: later ones never change the verdict. */
  lemma MessageFilterReadsFirstAnnotation(message: string, s: SpanData, later: seq<string>)
    requires |s.annotations| > 0
    ensures IsFiltered(ContainsMessageFilter(message), s.(annotations := s.annotations + later))
         == IsFiltered(ContainsMessageFilter(message), s)
  {
    assert (s.annotations + later)[0] == s.annotations[0];
  }

  /** Filters combine by disjunction: concatenating two lists filters a span
      iff either list does, whatever the order. */
  lemma {:induction false} AnyFilteredAppend(a: seq<Filter>, b: seq<Filter>, s: SpanData)
    ensures AnyFiltered(a + b, s) <==> AnyFiltered(a, s) || AnyFiltered(b, s)
    ensures AnyFiltered(a + b, s) == AnyFiltered(b + a, s)
  {
    if AnyFiltered(a, s) {
      var i :| 0 <= i < |a| && IsFiltered(a[i], s);
      assert (a + b)[i] == a[i];
      assert (b + a)[|b| + i] == a[i];
    }
    if AnyFiltered(b, s) {
      var i :| 0 <= i < |b| && IsFiltered(b[i], s);
      assert (a + b)[|a| + i] == b[i];
      assert (b + a)[i] == b[i];
    }
    if AnyFiltered(a + b, s) {
      var i :| 0 <= i < |a + b| && IsFiltered((a + b)[i], s);
      if i < |a| { assert (a + b)[i] == a[i]; } else { assert (a + b)[i] == b[i - |a|]; }
    }
    if AnyFiltered(b + a, s) {
      var i :| 0 <= i < |b + a| && IsFiltered((b + a)[i], s);
      if i < |b| { assert (b + a)[i] == b[i]; } else { assert (b + a)[i] == a[i - |b|]; }
    }
  }
}
