// BaseController.PageRequest: the page number and page size its two-argument
// constructor normalises. Pages bound through the no-argument constructor and
// the setters keep whatever values the request carried.
module PageRequests {
  import opened Wrappers

  const DefaultCurrent: int := 1
  const DefaultSize: int := 10
  const MaxSize: int := 100

  datatype PageRequest = PageRequest(current: int, size: int)

  /** A page request no constructor would change. */
  predicate Normal(p: PageRequest)
  {
    1 <= p.current && 1 <= p.size <= MaxSize
  }

  /** The no-argument constructor: the field initialisers. */
  const DefaultPage: PageRequest := PageRequest(DefaultCurrent, DefaultSize)

  /**
   * PageRequest(current, size): a missing or non-positive current becomes 1;
   * a missing or non-positive size becomes 10, and a size above 100 is cut
   * to 100.
   */
  function NewPageRequest(current: Option<int>, size: Option<int>): (p: PageRequest)
    ensures Normal(p)
  {
    var c := if current.Some? && current.value > 0 then current.value else DefaultCurrent;
    var s := if size.Some? && size.value > 0 then size.value else DefaultSize;
    PageRequest(c, if s > MaxSize then MaxSize else s)
  }

  /** Each field is kept when already valid and replaced otherwise. */
  lemma NewPageRequestRule(current: Option<int>, size: Option<int>)
    ensures var p := NewPageRequest(current, size);
      (current.Some? && current.value > 0 ==> p.current == current.value)
      && (current.None? || current.value <= 0 ==> p.current == 1)
      && (size.Some? && 1 <= size.value <= MaxSize ==> p.size == size.value)
      && (size.None? || size.value <= 0 ==> p.size == DefaultSize)
      && (size.Some? && size.value > MaxSize ==> p.size == MaxSize)
  {
  }

  /** Normalising is idempotent: a normal pair, and only a normal pair, comes back unchanged. */
  lemma NormaliseIdempotent(p: PageRequest)
    ensures NewPageRequest(Some(p.current), Some(p.size)) == p <==> Normal(p)
    ensures var q := NewPageRequest(Some(p.current), Some(p.size));
      NewPageRequest(Some(q.current), Some(q.size)) == q
  {
  }

  lemma DefaultPageNormal()
    ensures Normal(DefaultPage) && DefaultPage == NewPageRequest(None, None)
  {
  }
}
