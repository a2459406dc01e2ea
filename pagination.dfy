/**
 The base pagination strategy: it keeps the response key and the caller's
 parameter array, and resolves the page size lazily, caching it in a field.
 */
module Pagination {
  import opened Php

  /** The parameter keys that give a page size, highest precedence first. */
  const PageSizeKeys: seq<string> := ["page[size]", "per_page"]

  /** The position in `keys` of the first key that is set in `params`, if any. */
  function FirstSetKey(params: Params, keys: seq<string>): (k: Option<nat>)
    ensures k.Some? ==> k.value < |keys| && IsSet(params, keys[k.value])
    ensures k.Some? ==> forall j :: 0 <= j < k.value ==> !IsSet(params, keys[j])
    ensures k.None? ==> forall j :: 0 <= j < |keys| ==> !IsSet(params, keys[j])
    decreases |keys|
  {
    if |keys| == 0 then None
    else if IsSet(params, keys[0]) then Some(0)
    else match FirstSetKey(params, keys[1..])
      case None => None
      case Some(i) => Some(i + 1)
  }

  /** The page size a fresh strategy settles on: `page[size]` if set, else
      `per_page` if set, else the process-wide default. */
  function ResolvePageSize(params: Params, defaultPageSize: int): (size: Value)
    ensures size == match FirstSetKey(params, PageSizeKeys)
                    case Some(i) => params[PageSizeKeys[i]]
                    case None => Int(defaultPageSize)
    ensures IsSet(params, "page[size]") ==> size == params["page[size]"]
    ensures !IsSet(params, "page[size]") && IsSet(params, "per_page") ==> size == params["per_page"]
    ensures !IsSet(params, "page[size]") && !IsSet(params, "per_page") ==> size == Int(defaultPageSize)
    ensures size != Null
  {
    if IsSet(params, "page[size]") then params["page[size]"]
    else if IsSet(params, "per_page") then params["per_page"]
    else Int(defaultPageSize)
  }

  class AbstractStrategy {
    /** The response key under which a page's items are returned. */
    const resourcesKey: string
    /** The caller's parameter array, as given. */
    const params: Params
    /** The process-wide default page size. */
    const defaultPageSize: int
    /** The resolved page size; `Null` until the first resolution. */
    var pageSize: Value

    /** The cache is either empty or holds the size the parameters
        determine; it never holds anything else. */
    ghost predicate Valid()
      reads this
    {
      pageSize == Null || pageSize == ResolvePageSize(params, defaultPageSize)
    }

    constructor (resourcesKey: string, params: Params, defaultPageSize: int)
      ensures this.resourcesKey == resourcesKey
      ensures Params() == params
      ensures this.defaultPageSize == defaultPageSize
      ensures pageSize == Null && Valid()
    {
      this.resourcesKey := resourcesKey;
      this.params := params;
      this.defaultPageSize := defaultPageSize;
      pageSize := Null;
    }

    /** `params()`: the parameter array given at construction. */
    function Params(): Params
    {
      params
    }

    /** `pageSize()`: returns the cached size if there is one; otherwise
        resolves it from the parameters, caches it, and returns it. */
    method PageSize() returns (size: Value)
      requires Valid()
      modifies this`pageSize
      ensures Valid()
      ensures old(pageSize) != Null ==> size == old(pageSize)
      ensures size == ResolvePageSize(params, defaultPageSize)
      ensures pageSize == size
    {
      if pageSize != Null {
        return pageSize;
      } else if IsSet(params, "page[size]") {
        pageSize := params["page[size]"];
      } else if IsSet(params, "per_page") {
        pageSize := params["per_page"];
      } else {
        pageSize := Int(defaultPageSize);
      }
      return pageSize;
    }
  }

  /** Two resolutions in a row give the same size, the one the parameters
      determine, whether or not the strategy had resolved it before. */
  method PageSizeIsMemoized(s: AbstractStrategy) returns (first: Value, second: Value)
    requires s.Valid()
    modifies s`pageSize
    ensures s.Valid()
    ensures first == second == ResolvePageSize(s.Params(), s.defaultPageSize)
  {
    first := s.PageSize();
    second := s.PageSize();
  }
}
