/**
 * The list-query helper: it turns a request's query string into a chain of
 * operations on a database query (find, sort, skip, limit, select). The
 * query itself is kept abstract, as the list of operations applied to it.
 */
module ApiFeatures {
  import opened Maybe
  import Text

  /** The parsed query string, one string value per key. */
  type QueryString = map<string, string>

  /** One call on the chained query object. */
  datatype Op = Find(filter: map<string, string>) | Sort(key: string) | Skip(n: int) | Limit(n: int) | Select(fields: string)

  /** The query-string keys that steer the helper and are not filters. */
  const ExcludedFields: seq<string> := ["page", "limit", "sort", "fields"]

  const DefaultSort: string := "-createdAt"
  const DefaultSelect: string := "-__v"
  const DefaultPage: int := 1
  const DefaultLimit: int := 10

  /** `{...obj}` followed by `delete` of every key in `keys`, one after another. */
  method RemoveKeys(obj: map<string, string>, keys: seq<string>) returns (r: map<string, string>)
    ensures forall k :: k in r <==> k in obj && k !in keys
    ensures forall k :: k in r ==> r[k] == obj[k]
  {
    r := obj;
    var i := 0;
    while i < |keys|
      invariant 0 <= i <= |keys|
      invariant forall k :: k in r <==> k in obj && k !in keys[..i]
      invariant forall k :: k in r ==> r[k] == obj[k]
    {
      assert keys[..i + 1] == keys[..i] + [keys[i]];
      r := r - {keys[i]};
      i := i + 1;
    }
    assert keys[..i] == keys;
  }

  /** The filter `filter()` hands to `find`: the query string without the reserved keys. */
  function Filtered(qs: QueryString): map<string, string>
  {
    map k | k in qs && k !in ExcludedFields :: qs[k]
  }

  /** A value JavaScript treats as true: present and not the empty string. */
  function Truthy(qs: QueryString, key: string): Option<string>
  {
    if key in qs && qs[key] != [] then Some(qs[key]) else None
  }

  /** `qs[key].split(',').join(' ')` when that value is truthy, otherwise `default`. */
  function SpaceList(qs: QueryString, key: string, default: string): (r: string)
    ensures Truthy(qs, key).None? ==> r == default
    ensures Truthy(qs, key).Some? ==>
      var s := qs[key];
      |r| == |s| && ',' !in r &&
      forall i :: 0 <= i < |s| ==> r[i] == if s[i] == ',' then ' ' else s[i]
  {
    match Truthy(qs, key)
    case None => default
    case Some(s) =>
      Text.JoinSplitSubstitutes(s, ',', ' ');
      Text.Join(Text.Split(s, ','), ' ')
  }

  /** `parseInt(value, 10) || default`: NaN, a missing value and zero all fall back to the default. */
  function NumberOr(qs: QueryString, key: string, default: int): (n: int)
    ensures key !in qs ==> n == default
    ensures key in qs && Text.ParseInt(qs[key]).Some? && Text.ParseInt(qs[key]).value != 0 ==> n == Text.ParseInt(qs[key]).value
    ensures key in qs && (Text.ParseInt(qs[key]).None? || Text.ParseInt(qs[key]).value == 0) ==> n == default
  {
    if key !in qs then default
    else
      match Text.ParseInt(qs[key])
      case None => default
      case Some(p) => if p == 0 then default else p
  }

  /** With neither `page` nor `limit` in the query string, pagination skips nothing and takes ten documents. */
  lemma PaginationDefaults(qs: QueryString)
    requires "page" !in qs && "limit" !in qs
    ensures var page := NumberOr(qs, "page", DefaultPage);
      var limit := NumberOr(qs, "limit", DefaultLimit);
      (page - 1) * limit == 0 && limit == 10
  {
  }

  /** The page and page size as `pagination()` reads them; neither is ever zero. */
  lemma PageAndLimitNonZero(qs: QueryString)
    ensures NumberOr(qs, "page", DefaultPage) != 0 && NumberOr(qs, "limit", DefaultLimit) != 0
  {
  }

  /** A page and page size written as decimal numerals are read back exactly. */
  lemma PaginationReadsNumerals(qs: QueryString, page: nat, limit: nat)
    requires page > 0 && limit > 0
    requires "page" in qs && qs["page"] == Text.Decimal(page)
    requires "limit" in qs && qs["limit"] == Text.Decimal(limit)
    ensures NumberOr(qs, "page", DefaultPage) == page && NumberOr(qs, "limit", DefaultLimit) == limit
    ensures (NumberOr(qs, "page", DefaultPage) - 1) * NumberOr(qs, "limit", DefaultLimit) == (page - 1) * limit
  {
    Text.ParseIntDecimal(page);
    Text.ParseIntDecimal(limit);
  }

  /** The list-query helper over a query and the request's query string. */
  class APIFeatures {
    /** The operations applied so far to the database query. */
    var query: seq<Op>
    var queryString: QueryString

    constructor (query: seq<Op>, queryString: QueryString)
      ensures this.query == query && this.queryString == queryString
    {
      this.query := query;
      this.queryString := queryString;
    }

    /** Applies `find` with every key of the query string except `page`, `limit`, `sort` and `fields`. */
    method Filter() returns (self: APIFeatures)
      modifies this`query
      ensures self == this
      ensures query == old(query) + [Find(Filtered(queryString))]
    {
      var queryObj := RemoveKeys(queryString, ExcludedFields);
      assert queryObj == Filtered(queryString);
      query := query + [Find(queryObj)];
      self := this;
    }

    /** Applies `sort` with the `sort` parameter's comma list as a space list, or newest first. */
    method Sort() returns (self: APIFeatures)
      modifies this`query
      ensures self == this
      ensures query == old(query) + [Op.Sort(SpaceList(queryString, "sort", DefaultSort))]
    {
      query := query + [Op.Sort(SpaceList(queryString, "sort", DefaultSort))];
      self := this;
    }

    /** Applies `skip((page - 1) * limit)` and then `limit(limit)`. */
    method Pagination() returns (self: APIFeatures)
      modifies this`query
      ensures self == this
      ensures var page := NumberOr(queryString, "page", DefaultPage);
        var limit := NumberOr(queryString, "limit", DefaultLimit);
        query == old(query) + [Skip((page - 1) * limit), Limit(limit)]
    {
      var page := NumberOr(queryString, "page", DefaultPage);
      var limit := NumberOr(queryString, "limit", DefaultLimit);
      var skip := (page - 1) * limit;
      query := query + [Skip(skip), Limit(limit)];
      self := this;
    }

    /** Applies `select` with the `fields` parameter's comma list as a space list, or everything but `__v`. */
    method LimitField() returns (self: APIFeatures)
      modifies this`query
      ensures self == this
      ensures query == old(query) + [Select(SpaceList(queryString, "fields", DefaultSelect))]
    {
      query := query + [Select(SpaceList(queryString, "fields", DefaultSelect))];
      self := this;
    }
  }
}
