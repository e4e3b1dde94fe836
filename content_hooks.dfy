/** The three fetch hooks (site content, services, contact information).
    Each keeps `{data, loading, error}` and runs its fetch when it mounts
    and again whenever its dependency changes. The hooks differ only in
    the dependency and the fallback error text, so one class models them. */
module ContentHooks {
  import opened Records

  /** What the store call did: returned rows, or threw. A thrown `Error`
      carries a message; anything else thrown has none. */
  datatype FetchOutcome<T> = Fetched(rows: seq<T>) | Threw(isErrorObject: bool, errorMessage: string)

  const ContentFallback := "Error fetching content"
  const ServicesFallback := "Error fetching services"
  const ContactFallback := "Error fetching contact info"

  /** `err instanceof Error ? err.message : fallback`. */
  function ErrorText(isErrorObject: bool, errorMessage: string, fallback: string): (r: string)
    ensures isErrorObject ==> r == errorMessage
    ensures !isErrorObject ==> r == fallback && (fallback != "" ==> r != "")
  {
    if isErrorObject then errorMessage else fallback
  }

  /** Whether a re-render starts a new fetch: the effect re-runs when its
      dependency list changed. */
  function Refetches<D(==)>(prev: D, next: D): (r: bool)
    ensures r <==> prev != next
  {
    prev != next
  }

  class FetchHook<D(==), T> {
    /** The hook's dependency: the section, the active-only flag, or unit. */
    var deps: D
    /** The text used when the thrown value has no message. */
    const fallback: string
    var data: seq<T>
    var loading: bool
    var error: Option<string>

    /** The first render: empty data, loading, no error. */
    constructor (initialDeps: D, fallbackText: string)
      ensures deps == initialDeps && fallback == fallbackText
      ensures data == [] && loading && error == None
    {
      deps, fallback := initialDeps, fallbackText;
      data, loading, error := [], true, None;
    }

    /** The fetch function up to its store call. */
    method StartFetch()
      modifies this`loading
      ensures loading
    {
      loading := true;
    }

    /** The fetch function from its store call on: rows replace the data,
        a throw keeps the data and records an error; `loading` ends either
        way, and nothing ever clears an earlier error. */
    method CompleteFetch(outcome: FetchOutcome<T>)
      modifies this`data, this`loading, this`error
      ensures !loading
      ensures outcome.Fetched? ==> data == outcome.rows && error == old(error)
      ensures outcome.Threw? ==>
        data == old(data) && error == Some(ErrorText(outcome.isErrorObject, outcome.errorMessage, fallback))
    {
      match outcome {
        case Fetched(rows) =>
          data := rows;
        case Threw(isErrorObject, errorMessage) =>
          error := Some(ErrorText(isErrorObject, errorMessage, fallback));
      }
      loading := false;
    }

    /** A re-render with dependency `next`: when it differs from the last
        one the effect starts a fetch; otherwise nothing happens. */
    method Rerender(next: D) returns (fetchStarted: bool)
      modifies this`deps, this`loading
      ensures fetchStarted == Refetches(old(deps), next)
      ensures deps == next
      ensures loading == (fetchStarted || old(loading))
    {
      fetchStarted := Refetches(deps, next);
      deps := next;
      if fetchStarted {
        StartFetch();
      }
    }
  }

  /** `useContactInfo` has an empty dependency list: a re-render of its
      component never starts a fetch and leaves the hook's state as it
      was, so the contact information is fetched once, on mount. */
  method ContactInfoRerender(hook: FetchHook<(), ContactInfo>) returns (fetchStarted: bool)
    modifies hook
    ensures !fetchStarted
    ensures hook.data == old(hook.data) && hook.loading == old(hook.loading) && hook.error == old(hook.error)
  {
    assert hook.deps == ();
    fetchStarted := hook.Rerender(());
  }
}
