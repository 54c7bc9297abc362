/** URLSearchParams as the service clients use it: `append` in program
    order and `toString` joining `name=value` pairs with '&'.
    Percent-encoding of names and values is not modelled. */
module Query {

  datatype QueryParam = QueryParam(name: string, value: string)

  /** `pairs.map(p => p.name + '=' + p.value).join('&')` */
  function Serialize(pairs: seq<QueryParam>): (s: string)
    ensures pairs == [] <==> s == ""
  {
    if pairs == [] then ""
    else if |pairs| == 1 then pairs[0].name + "=" + pairs[0].value
    else
      var s := Serialize(pairs[..|pairs| - 1]) + "&" + pairs[|pairs| - 1].name + "=" + pairs[|pairs| - 1].value;
      assert s[|s| - |pairs[|pairs| - 1].value| - 1 - |pairs[|pairs| - 1].name| - 1] == '&';
      s
  }

  class SearchParams {
    var pairs: seq<QueryParam>

    constructor ()
      ensures pairs == []
    {
      pairs := [];
    }

    method Append(name: string, value: string)
      modifies this
      ensures pairs == old(pairs) + [QueryParam(name, value)]
    {
      pairs := pairs + [QueryParam(name, value)];
    }

    function ToString(): (s: string)
      reads this
      ensures s == "" <==> pairs == []
    {
      Serialize(pairs)
    }
  }
}
