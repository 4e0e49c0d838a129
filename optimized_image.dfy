/**
 * The lazily loaded image (src/components/ui/optimized-image.tsx): its
 * defaults, its three flags (loaded, visible, failed), the handlers that set
 * them, and what it renders for each combination.
 *
 * The intersection observer is reduced to the batches of entries it delivers:
 * each entry either intersects the viewport or does not.
 */
module OptimizedImage {
  import opened Wrappers

  datatype LoadingStrategy = Eager | Lazy
  datatype FetchPriority = High | Low | AutoPriority
  datatype Decoding = SyncDecoding | AsyncDecoding | AutoDecoding

  /** The optional properties as the caller passes them. */
  datatype Props = Props(
    loading: Option<LoadingStrategy>,
    fetchPriority: Option<FetchPriority>,
    decoding: Option<Decoding>,
    showPlaceholder: Option<bool>,
    placeholderClass: Option<string>,
    useIntersectionObserver: Option<bool>,
    rootMargin: Option<string>)

  /** The properties after the defaults are filled in. */
  datatype Config = Config(
    loading: LoadingStrategy,
    fetchPriority: FetchPriority,
    decoding: Decoding,
    showPlaceholder: bool,
    placeholderClass: string,
    useIntersectionObserver: bool,
    rootMargin: string)

  /** The destructuring defaults: a given property is kept, a missing one takes its default. */
  function Resolve(p: Props): (c: Config)
    ensures p.loading.None? ==> c.loading == Lazy
    ensures p.fetchPriority.None? ==> c.fetchPriority == AutoPriority
    ensures p.decoding.None? ==> c.decoding == AsyncDecoding
    ensures p.showPlaceholder.None? ==> c.showPlaceholder
    ensures p.placeholderClass.None? ==> c.placeholderClass == "bg-muted"
    ensures p.useIntersectionObserver.None? ==> !c.useIntersectionObserver
    ensures p.rootMargin.None? ==> c.rootMargin == "200px"
    ensures p.loading.Some? ==> c.loading == p.loading.value
    ensures p.fetchPriority.Some? ==> c.fetchPriority == p.fetchPriority.value
    ensures p.decoding.Some? ==> c.decoding == p.decoding.value
    ensures p.placeholderClass.Some? ==> c.placeholderClass == p.placeholderClass.value
    ensures p.rootMargin.Some? ==> c.rootMargin == p.rootMargin.value
    ensures p.useIntersectionObserver.Some? ==> c.useIntersectionObserver == p.useIntersectionObserver.value
    ensures p.showPlaceholder.Some? ==> c.showPlaceholder == p.showPlaceholder.value
  {
    Config(
      p.loading.GetOr(Lazy),
      p.fetchPriority.GetOr(AutoPriority),
      p.decoding.GetOr(AsyncDecoding),
      p.showPlaceholder.GetOr(true),
      p.placeholderClass.GetOr("bg-muted"),
      p.useIntersectionObserver.GetOr(false),
      p.rootMargin.GetOr("200px"))
  }

  // ---------------------------------------------------------------------------
  // The flags and their events
  // ---------------------------------------------------------------------------

  /** The component's state; `observing` says whether the observer is still connected. */
  datatype Flags = Flags(isLoaded: bool, isVisible: bool, hasError: bool, observing: bool)

  /** What can happen to a mounted image. */
  datatype ImageEvent =
    | Loaded                      // the image's `load` event
    | Failed                      // the image's `error` event
    | Entries(intersecting: seq<bool>)  // one batch from the intersection observer

  /** The state on mount: nothing loaded or failed, and visible unless the observer decides. */
  function InitialFlags(c: Config): (f: Flags)
    ensures !f.isLoaded && !f.hasError
    ensures f.isVisible <==> !c.useIntersectionObserver
    ensures f.observing <==> c.useIntersectionObserver
  {
    Flags(false, !c.useIntersectionObserver, false, c.useIntersectionObserver)
  }

  predicate AnyIntersecting(entries: seq<bool>)
  {
    exists i | 0 <= i < |entries| :: entries[i]
  }

  /** The state after one event. */
  function Step(f: Flags, e: ImageEvent): Flags
  {
    match e
    case Loaded => f.(isLoaded := true)
    case Failed => f.(hasError := true, isLoaded := true)
    case Entries(entries) =>
      if f.observing && AnyIntersecting(entries) then f.(isVisible := true, observing := false) else f
  }

  function Run(f: Flags, events: seq<ImageEvent>): Flags
    decreases |events|
  {
    if events == [] then f else Run(Step(f, events[0]), events[1..])
  }

  /** No flag is ever reset. */
  predicate Grows(f: Flags, g: Flags)
  {
    (f.isLoaded ==> g.isLoaded) && (f.isVisible ==> g.isVisible) && (f.hasError ==> g.hasError)
  }

  /** Each step keeps a failed image loaded and resets no flag. */
  lemma StepKeepsInvariant(f: Flags, e: ImageEvent)
    requires f.hasError ==> f.isLoaded
    ensures Step(f, e).hasError ==> Step(f, e).isLoaded
    ensures Grows(f, Step(f, e))
  {
  }

  /** Over any run of events the flags only go from false to true, and a failed image counts as loaded. */
  lemma {:induction false} RunMonotone(f: Flags, events: seq<ImageEvent>)
    requires f.hasError ==> f.isLoaded
    ensures Run(f, events).hasError ==> Run(f, events).isLoaded
    ensures Grows(f, Run(f, events))
    decreases |events|
  {
    if events != [] {
      StepKeepsInvariant(f, events[0]);
      RunMonotone(Step(f, events[0]), events[1..]);
    }
  }

  /** Once an error has arrived the image stays failed, whatever follows. */
  lemma FailureIsFinal(f: Flags, before: seq<ImageEvent>, after: seq<ImageEvent>)
    ensures Run(f, before + [Failed] + after).hasError
    ensures Run(f, before + [Failed] + after).isLoaded
  {
    RunAppend(f, before + [Failed], after);
    RunAppend(f, before, [Failed]);
    var g := Run(f, before + [Failed]);
    assert Run(Step(Run(f, before), Failed), []) == g;
    RunMonotone(g, after);
  }

  lemma {:induction false} RunAppend(f: Flags, a: seq<ImageEvent>, b: seq<ImageEvent>)
    ensures Run(f, a + b) == Run(Run(f, a), b)
    decreases |a|
  {
    if a == [] {
      assert a + b == b;
    } else {
      assert (a + b)[1..] == a[1..] + b;
      RunAppend(Step(f, a[0]), a[1..], b);
    }
  }

  // ---------------------------------------------------------------------------
  // What is rendered
  // ---------------------------------------------------------------------------

  /** The pulsing placeholder: shown while the image is not loaded, if placeholders are on. */
  predicate ShowsPlaceholder(c: Config, f: Flags)
  {
    c.showPlaceholder && !f.isLoaded
  }

  /** `shouldRenderImage`: eager images always, others once visible. */
  predicate ShouldRenderImage(c: Config, f: Flags)
  {
    c.loading == Eager || f.isVisible
  }

  /** The `<img>` element is rendered when it should be and has not failed. */
  predicate RendersImage(c: Config, f: Flags)
  {
    ShouldRenderImage(c, f) && !f.hasError
  }

  /** The "Failed to load" banner. */
  predicate RendersError(f: Flags)
  {
    f.hasError
  }

  /** The failure banner and the image never show together, and a failed image has no placeholder. */
  lemma RenderedPartsExclude(c: Config, f: Flags)
    requires f.hasError ==> f.isLoaded
    ensures !(RendersImage(c, f) && RendersError(f))
    ensures RendersError(f) ==> !ShowsPlaceholder(c, f)
  {
  }

  /** With the defaults, the image is rendered from the start (native lazy loading) with a placeholder. */
  lemma DefaultsRenderAtOnce()
    ensures var c := Resolve(Props(None, None, None, None, None, None, None));
      RendersImage(c, InitialFlags(c)) && ShowsPlaceholder(c, InitialFlags(c))
  {
  }

  /** With the observer on, a lazy image is not rendered until an entry intersects, and then it is. */
  lemma ObserverDefersImage(c: Config, entries: seq<bool>)
    requires c.useIntersectionObserver && c.loading == Lazy
    ensures !RendersImage(c, InitialFlags(c))
    ensures RendersImage(c, Step(InitialFlags(c), Entries(entries))) <==> AnyIntersecting(entries)
  {
  }

  // ---------------------------------------------------------------------------
  // The component
  // ---------------------------------------------------------------------------

  class Image {
    const config: Config
    var isLoaded: bool
    var isVisible: bool
    var hasError: bool
    var observing: bool

    function State(): Flags
      reads this
    {
      Flags(isLoaded, isVisible, hasError, observing)
    }

    constructor (props: Props)
      ensures config == Resolve(props)
      ensures State() == InitialFlags(config)
    {
      config := Resolve(props);
      isLoaded := false;
      isVisible := !Resolve(props).useIntersectionObserver;
      hasError := false;
      observing := Resolve(props).useIntersectionObserver;
    }

    method HandleLoad()
      modifies this
      ensures State() == Step(old(State()), Loaded)
    {
      isLoaded := true;
    }

    method HandleError()
      modifies this
      ensures State() == Step(old(State()), Failed)
    {
      hasError := true;
      isLoaded := true;
    }

    /** The observer's callback: the first intersecting entry makes the image visible and disconnects the observer. */
    method OnEntries(entries: seq<bool>)
      modifies this
      ensures State() == Step(old(State()), Entries(entries))
    {
      if !observing {
        return;
      }
      var i := 0;
      var disconnect := false;
      while i < |entries|
        invariant 0 <= i <= |entries|
        invariant disconnect <==> AnyIntersecting(entries[..i])
        invariant isVisible == (old(isVisible) || disconnect)
        invariant isLoaded == old(isLoaded) && hasError == old(hasError) && observing == old(observing)
      {
        if entries[i] {
          isVisible := true;
          disconnect := true;
        }
        assert entries[..i + 1][i] == entries[i];
        i := i + 1;
      }
      assert entries[..i] == entries;
      if disconnect {
        observing := false;
      }
    }
  }
}
