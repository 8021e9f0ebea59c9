/** The claims file as the system of record: one writer's append
    (backend/libs/adapters/claims_json.py), and any interleaving of many. */
module ClaimsFile {
  import opened GraphState
  import opened Options

  /** A stored claim; `number` is the digits of its CLM-#### id. */
  datatype Claim = Claim(number: nat, status: string, args: ClaimArgs)

  const FIRST_ID := 8820
  const LAST_ID := 9999   // the id pattern allows four digits

  /** max(.., default=8820): the default only stands in for an empty file. */
  function Highest(claims: seq<Claim>): (h: nat)
    ensures forall c :: c in claims ==> c.number <= h
    ensures if claims == [] then h == FIRST_ID else exists c :: c in claims && c.number == h
  {
    if claims == [] then FIRST_ID
    else if |claims| == 1 then claims[0].number
    else
      var rest := Highest(claims[1..]);
      if claims[0].number > rest then claims[0].number else rest
  }

  /** One above the highest stored number, and 8821 in an empty file. */
  predicate IsNext(claims: seq<Claim>, number: nat) {
    if claims == [] then number == 8821
    else (forall c :: c in claims ==> c.number < number) && exists c :: c in claims && c.number + 1 == number
  }

  /** The record the next append builds: the arguments as they are, just submitted,
      under the next number; or None when its id breaks the pattern, which it does
      exactly when a stored number leaves no four digits above it. */
  function NextClaim(claims: seq<Claim>, args: ClaimArgs): (r: Option<Claim>)
    ensures r == None <==> exists c :: c in claims && c.number >= 9999
    ensures r.Some? ==> r.value.args == args && r.value.status == "Submitted" && IsNext(claims, r.value.number)
    ensures r.Some? <==> Highest(claims) < LAST_ID
    ensures r.Some? ==> r.value.number <= 9999
  {
    if Highest(claims) + 1 <= LAST_ID then Some(Claim(Highest(claims) + 1, "Submitted", args)) else None
  }

  /** The adapter as one process sees it, with the file as a field. */
  class JsonFileClaimsRepo {
    var file: Option<seq<Claim>>     // None: the file does not exist

    function Claims(): seq<Claim>
      reads this
    {
      if file.Some? then file.value else []
    }

    constructor (seed: Option<seq<Claim>>)
      ensures file == seed
    {
      file := seed;
    }

    /** ClaimNotFound carries the ids it did find. */
    method Get(number: nat) returns (found: Option<Claim>, known: seq<nat>)
      ensures found.Some? ==> found.value in Claims() && found.value.number == number
      ensures found == None ==> |known| == |Claims()|
      ensures found == None ==> forall i :: 0 <= i < |known| ==> known[i] == Claims()[i].number != number
    {
      known := [];
      var claims := if file.Some? then file.value else [];
      for i := 0 to |claims|
        invariant |known| == i
        invariant forall j :: 0 <= j < i ==> known[j] == claims[j].number != number
      {
        if claims[i].number == number { return Some(claims[i]), known; }
        known := known + [claims[i].number];
      }
      return None, known;
    }

    method Append(args: ClaimArgs) returns (claim: Option<Claim>)
      modifies this
      ensures claim == NextClaim(old(Claims()), args)
      ensures claim.Some? ==> file == Some(old(Claims()) + [claim.value])
      ensures claim == None ==> file == old(file)
    {
      var claims := if file.Some? then file.value else [];
      claim := NextClaim(claims, args);
      if claim.Some? { file := Some(claims + [claim.value]); }
    }
  }
}
