/** The infinite-scroll helper of src/hooks/usePaginatedScroll.ts: four pieces
    of state, a scroll event that may start a fetch, and the success and
    failure continuations of that fetch. */
module PaginatedScroll {
  import opened JsValues

  /** The scroll container's metrics at the time of the scroll event. */
  datatype Container = Container(scrollTop: int, scrollHeight: int, clientHeight: int)

  /** `scrollTop + clientHeight === scrollHeight`: the container is at its bottom. */
  predicate AtBottom(c: Container) {
    c.scrollTop + c.clientHeight == c.scrollHeight
  }

  const DefaultCounter := 1

  class Pager {
    var loading: bool
    var counter: int
    var data: seq<Value>
    /** `false`, or the value the last failed fetch was rejected with. */
    var error: Value
    /** The `data` and `counter` the continuations of the fetch in flight
        captured when the scroll started it. */
    var fetchData: seq<Value>
    var fetchCounter: int

    /** While a fetch is in flight nothing else changes the page state, so what
        its continuations captured is still current. */
    ghost predicate Valid()
      reads this
    {
      loading ==> fetchData == data && fetchCounter == counter
    }

    /** Lines 33-40: `initialCounter` defaults to 1, `initialData` to `[]`. */
    constructor (initialData: Option<seq<Value>>, initialCounter: Option<int>)
      ensures Valid()
      ensures !loading && error == Bool(false)
      ensures counter == if initialCounter.Some? then initialCounter.value else DefaultCounter
      ensures data == if initialData.Some? then initialData.value else []
    {
      loading := false;
      counter := if initialCounter.Some? then initialCounter.value else DefaultCounter;
      data := if initialData.Some? then initialData.value else [];
      error := Bool(false);
      fetchData, fetchCounter := [], 0;
    }

    /** `onScroll()` (lines 45-53): starts a fetch, and sets `loading`, only
        when there is a container at its bottom and no fetch is loading;
        otherwise nothing changes. */
    method Scroll(container: Option<Container>) returns (fetch: bool)
      requires Valid()
      modifies this
      ensures Valid()
      ensures fetch <==> container.Some? && AtBottom(container.value) && !old(loading)
      ensures fetch ==> loading && data == old(data) && counter == old(counter) && error == old(error)
      ensures !fetch ==> loading == old(loading) && data == old(data) && counter == old(counter) && error == old(error)
      ensures !fetch ==> fetchData == old(fetchData) && fetchCounter == old(fetchCounter)
    {
      fetch := false;
      if container.Some? {
        var c := container.value;
        if AtBottom(c) && !loading {
          loading := true;
          fetchData, fetchCounter := data, counter;
          fetch := true;
        }
      }
    }

    /** The `.then` continuation (lines 54-59): appends the page, advances the
        counter, clears `error` and `loading`. */
    method Resolve(newData: seq<Value>)
      requires Valid() && loading
      modifies this
      ensures Valid()
      ensures data == old(data) + newData
      ensures counter == old(counter) + 1
      ensures error == Bool(false) && !loading
    {
      error := Bool(false);
      data := fetchData + newData;
      counter := fetchCounter + 1;
      loading := false;
    }

    /** The `.catch` continuation (lines 60-62): keeps the page and counter,
        records the rejection value and clears `loading`. */
    method Reject(rejection: Value)
      requires Valid() && loading
      modifies this
      ensures Valid()
      ensures data == old(data) && counter == old(counter)
      ensures error == rejection && !loading
    {
      error := rejection;
      loading := false;
    }
  }

  /** The scenario of the hook's tests: a scroll at the bottom starts one fetch,
      a second scroll while loading starts none, and success advances the
      counter from 1 to 2. */
  method ScrollScenario(item: Value)
  {
    var p := new Pager(None, None);
    var bottom := Container(450, 900, 450);
    var started := p.Scroll(Some(bottom));
    assert started && p.loading;
    var again := p.Scroll(Some(bottom));
    assert !again;
    p.Resolve([item]);
    assert p.counter == 2 && p.data == [item] && !p.loading;
    var notAtBottom := p.Scroll(Some(Container(450, 1200, 450)));
    assert !notAtBottom && !p.loading;
  }
}
