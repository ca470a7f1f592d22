/**
 * The Home screen's fetch lifecycle. The screen keeps three state cells
 * (the character list, the loading flag and an optional error message);
 * a load first marks the screen as loading and clears the error, and
 * then settles on the outcome of the HTTP request: the response's items
 * replace the list, or a fixed message is set and the list is kept. The
 * loading flag is cleared on both paths. The request itself is an input.
 */
module Screen {
  import opened Characters

  datatype Option<T> = None | Some(value: T)

  /** The message shown, in Spanish, when the characters could not be loaded. */
  const LOAD_ERROR: string := "No se pudieron cargar los personajes."

  /** The outcome of the characters request: its `items`, or any failure. */
  datatype FetchResult = Ok(items: seq<Character>) | Failed

  /** The three state cells, as one value. */
  datatype ScreenView = ScreenView(characters: seq<Character>, isLoading: bool, errorMessage: Option<string>)

  /** JavaScript truthiness of the error cell: `null` and `""` are falsy. */
  predicate Truthy(message: Option<string>) {
    message.Some? && message.value != ""
  }

  /** The only error messages the screen ever holds: none, or the fixed one. */
  predicate Consistent(v: ScreenView) {
    v.errorMessage == None || v.errorMessage == Some(LOAD_ERROR)
  }

  /** The state when the screen is created: loading, no error, no characters. */
  function Initial(): (v: ScreenView)
    ensures v.characters == [] && v.isLoading && v.errorMessage == None
    ensures Consistent(v) && ShowLoading(v) && !ShowErrorBanner(v) && !ShowEmptyMessage(v)
  {
    ScreenView([], true, None)
  }

  /** The first two statements of a load: loading on, error cleared. */
  function Started(v: ScreenView): (r: ScreenView)
    ensures r.isLoading && r.errorMessage == None && r.characters == v.characters
    ensures Consistent(r) && !ShowErrorBanner(r) && !ShowEmptyMessage(r)
  {
    v.(isLoading := true, errorMessage := None)
  }

  /**
   * The rest of a load once the request has settled: the success path
   * stores the items verbatim, the failure path sets the fixed message,
   * and the final step clears the loading flag on either path.
   */
  function Settled(v: ScreenView, result: FetchResult): (r: ScreenView)
    ensures !r.isLoading
    ensures result.Ok? ==> r.characters == result.items && r.errorMessage == v.errorMessage
    ensures result.Failed? ==> r.characters == v.characters && r.errorMessage == Some(LOAD_ERROR)
  {
    match result
    case Ok(items) => v.(characters := items, isLoading := false)
    case Failed => v.(errorMessage := Some(LOAD_ERROR), isLoading := false)
  }

  /** A whole load: start, then settle on the request's outcome. */
  function Loaded(v: ScreenView, result: FetchResult): (r: ScreenView)
    ensures result.Ok? ==> r == ScreenView(result.items, false, None)
    ensures result.Failed? ==> r == ScreenView(v.characters, false, Some(LOAD_ERROR))
  {
    Settled(Started(v), result)
  }

  /** A successful load shows exactly the items, in order, with no error. */
  lemma LoadSucceeds(v: ScreenView, items: seq<Character>)
    ensures Loaded(v, Ok(items)) == ScreenView(items, false, None)
    ensures !ShowErrorBanner(Loaded(v, Ok(items)))
  {
  }

  /** A failed load shows the fixed message and keeps the previous list. */
  lemma LoadFails(v: ScreenView)
    ensures Loaded(v, Failed) == ScreenView(v.characters, false, Some(LOAD_ERROR))
    ensures ShowErrorBanner(Loaded(v, Failed)) && !ShowEmptyMessage(Loaded(v, Failed))
  {
  }

  /** No load leaves the screen loading or with a foreign error message. */
  lemma LoadSettles(v: ScreenView, result: FetchResult)
    ensures !Loaded(v, result).isLoading && Consistent(Loaded(v, result))
    ensures Loaded(v, result).errorMessage == None <==> result.Ok?
  {
  }

  /**
   * The first load after creation ends in exactly one of: a non-empty
   * list, the error banner, or the empty-list message.
   */
  lemma FirstLoad(result: FetchResult)
    ensures var v := Loaded(Initial(), result);
      !v.isLoading
      && (ShowErrorBanner(v) <==> result.Failed?)
      && (ShowEmptyMessage(v) <==> result == Ok([]))
      && (v.characters != [] <==> result.Ok? && result.items != [])
      && (result.Failed? ==> v.characters == [])
  {
  }

  /** The loading overlay is open exactly while the loading flag is set. */
  function ShowLoading(v: ScreenView): (shown: bool)
    ensures shown ==> !ShowEmptyMessage(v)
  {
    v.isLoading
  }

  /** The error banner is rendered when the error cell is truthy. */
  function ShowErrorBanner(v: ScreenView): (shown: bool)
    ensures Consistent(v) ==> (shown <==> v.errorMessage == Some(LOAD_ERROR))
  {
    Truthy(v.errorMessage)
  }

  /**
   * The "no characters" message: not loading, an empty list and a falsy
   * error cell. It never appears together with the error banner.
   */
  function ShowEmptyMessage(v: ScreenView): (shown: bool)
    ensures shown ==> !ShowErrorBanner(v) && !v.isLoading
    ensures Consistent(v) ==> (shown <==> !v.isLoading && v.characters == [] && v.errorMessage == None)
  {
    !v.isLoading && |v.characters| == 0 && !Truthy(v.errorMessage)
  }

  /** The state after a sequence of loads, each one completed before the next. */
  function LoadedAll(v: ScreenView, results: seq<FetchResult>): ScreenView
    decreases |results|
  {
    if results == [] then v else LoadedAll(Loaded(v, results[0]), results[1..])
  }

  /** After repeated loads the list holds the items of the last successful one. */
  lemma {:induction false} LastSuccessWins(v: ScreenView, results: seq<FetchResult>, j: nat)
    requires j < |results| && results[j].Ok?
    requires forall k :: j < k < |results| ==> results[k].Failed?
    ensures LoadedAll(v, results).characters == results[j].items
    decreases |results|
  {
    if j == 0 {
      NoSuccessKeepsList(Loaded(v, results[0]), results[1..]);
    } else {
      LastSuccessWins(Loaded(v, results[0]), results[1..], j - 1);
    }
  }

  /** Loads that all fail leave the list as it was. */
  lemma {:induction false} NoSuccessKeepsList(v: ScreenView, results: seq<FetchResult>)
    requires forall k :: 0 <= k < |results| ==> results[k].Failed?
    ensures LoadedAll(v, results).characters == v.characters
    decreases |results|
  {
    if results != [] {
      NoSuccessKeepsList(Loaded(v, results[0]), results[1..]);
    }
  }

  /** After at least one load, the error cell is set iff the last one failed. */
  lemma {:induction false} LastLoadDecidesError(v: ScreenView, results: seq<FetchResult>)
    requires results != []
    ensures !LoadedAll(v, results).isLoading && Consistent(LoadedAll(v, results))
    ensures LoadedAll(v, results).errorMessage == None <==> results[|results| - 1].Ok?
    decreases |results|
  {
    if |results| > 1 {
      LastLoadDecidesError(Loaded(v, results[0]), results[1..]);
    }
  }

  /**
   * A second, failed call of the load after a successful one leaves the
   * previous list together with the error banner. The screen itself
   * only loads once, on mount.
   */
  lemma StaleListBesideError(c: Character)
    ensures var v := LoadedAll(Initial(), [Ok([c]), Failed]);
      v.characters == [c] && ShowErrorBanner(v)
  {
    var v1 := Loaded(Initial(), Ok([c]));
    assert LoadedAll(Initial(), [Ok([c]), Failed]) == LoadedAll(v1, [Failed]);
    assert LoadedAll(v1, [Failed]) == LoadedAll(Loaded(v1, Failed), []);
  }

  /**
   * Two overlapping loads (React's development-mode double effect run):
   * both start, the failure settles first and the success second. The
   * new list is shown and the error banner stays.
   */
  lemma OverlappingLoads(c: Character)
    ensures var v := Settled(Settled(Started(Started(Initial())), Failed), Ok([c]));
      v == ScreenView([c], false, Some(LOAD_ERROR)) && ShowErrorBanner(v)
  {
  }

  /** The screen component's state cells, updated in place by a load. */
  class HomeScreen {
    var characters: seq<Character>
    var isLoading: bool
    var errorMessage: Option<string>

    function View(): ScreenView
      reads this
    {
      ScreenView(characters, isLoading, errorMessage)
    }

    constructor ()
      ensures View() == Initial()
    {
      characters := [];
      isLoading := true;
      errorMessage := None;
    }

    /** Entering the `try` block: loading on, error cleared. */
    method StartLoad()
      modifies this
      ensures View() == Started(old(View()))
    {
      isLoading := true;
      errorMessage := None;
    }

    /** The request has settled: the `try` tail or the `catch`, then `finally`. */
    method Settle(result: FetchResult)
      modifies this
      ensures View() == Settled(old(View()), result)
    {
      match result {
        case Ok(items) =>
          characters := items;
        case Failed =>
          errorMessage := Some(LOAD_ERROR);
      }
      isLoading := false;
    }

    /** The whole load, with the request's outcome given as `result`. */
    method LoadCharacters(result: FetchResult)
      modifies this
      ensures View() == Loaded(old(View()), result)
      ensures !isLoading && Consistent(View())
    {
      StartLoad();
      Settle(result);
      LoadSettles(old(View()), result);
    }
  }
}
