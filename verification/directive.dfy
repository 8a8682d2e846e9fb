/** Function-call directives embedded in a model reply: detection
    (`parse_function_call`) and dispatch (`execute_function_call`) in
    backend/agent.py. */
module Directive {
  import opened Values
  import opened Api

  /** The literal the pattern requires inside the braces. */
  const KEY: string := "\"function\":"

  predicate KeyAt(s: string, p: int) {
    0 <= p && p + |KEY| <= |s| && s[p..p + |KEY|] == KEY
  }

  /** `s[i..j]` is a match of the pattern `\{.*"function":.*\}` under DOTALL:
      an opening brace, the key somewhere after it, and a closing brace at the
      end that comes after the key. */
  ghost predicate MatchAt(s: string, i: int, j: int) {
    && 0 <= i < j <= |s|
    && s[i] == '{'
    && s[j - 1] == '}'
    && exists p :: i < p && p + |KEY| <= j - 1 && KeyAt(s, p)
  }

  /** The match `re.search` reports: it starts at the leftmost position where
      any match starts, and, from there, the greedy stars make it the longest. */
  ghost predicate FirstMatch(s: string, i: int, j: int) {
    && MatchAt(s, i, j)
    && (forall i', j' :: MatchAt(s, i', j') ==> i <= i')
    && (forall j' :: MatchAt(s, i, j') ==> j' <= j)
  }

  function LastIndexOf(s: string, c: char): (r: Option<nat>)
    ensures r.Some? ==> r.value < |s| && s[r.value] == c && forall k :: r.value < k < |s| ==> s[k] != c
    ensures r.None? ==> forall k :: 0 <= k < |s| ==> s[k] != c
  {
    if s == [] then None
    else if s[|s| - 1] == c then Some(|s| - 1)
    else LastIndexOf(s[..|s| - 1], c)
  }

  function FirstIndexOf(s: string, c: char): (r: Option<nat>)
    ensures r.Some? ==> r.value < |s| && s[r.value] == c && forall k :: 0 <= k < r.value ==> s[k] != c
    ensures r.None? ==> forall k :: 0 <= k < |s| ==> s[k] != c
  {
    if s == [] then None
    else if s[0] == c then Some(0)
    else match FirstIndexOf(s[1..], c)
      case None => None
      case Some(k) => Some(k + 1)
  }

  /** The last occurrence of the key that ends at or before `limit`. */
  function LastKeyWithin(s: string, limit: nat): (r: Option<nat>)
    requires limit <= |s|
    ensures r.Some? ==>
      && KeyAt(s, r.value) && r.value + |KEY| <= limit
      && forall p :: r.value < p && p + |KEY| <= limit ==> !KeyAt(s, p)
    ensures r.None? ==> forall p :: p + |KEY| <= limit ==> !KeyAt(s, p)
  {
    if limit < |KEY| then None
    else if KeyAt(s, limit - |KEY|) then Some(limit - |KEY|)
    else LastKeyWithin(s, limit - 1)
  }

  lemma FirstMatchFound(s: string, q: nat, p: nat, i: nat)
    requires q < |s| && s[q] == '}' && forall k :: q < k < |s| ==> s[k] != '}'
    requires KeyAt(s, p) && p + |KEY| <= q
    requires forall p' :: p < p' && p' + |KEY| <= q ==> !KeyAt(s, p')
    requires i < p && s[i] == '{' && forall k :: 0 <= k < i ==> s[k] != '{'
    ensures FirstMatch(s, i, q + 1)
  {
    forall i', j' | MatchAt(s, i', j') ensures i <= i' && j' <= q + 1 {
      var p' :| i' < p' && p' + |KEY| <= j' - 1 && KeyAt(s, p');
      assert j' - 1 <= q;
      assert p' <= p;
    }
  }

  lemma NoMatchFound(s: string, q: Option<nat>, p: Option<nat>)
    requires q.None? ==> forall k :: 0 <= k < |s| ==> s[k] != '}'
    requires q.Some? ==> q.value < |s| && forall k :: q.value < k < |s| ==> s[k] != '}'
    requires q.Some? && p.None? ==> forall p' :: p' + |KEY| <= q.value ==> !KeyAt(s, p')
    requires q.Some? && p.Some? ==>
      && p.value <= |s|
      && forall p' :: p.value < p' && p' + |KEY| <= q.value ==> !KeyAt(s, p')
    requires q.Some? && p.Some? ==> forall k :: 0 <= k < p.value ==> s[k] != '{'
    ensures forall i, j :: !MatchAt(s, i, j)
  {
  }

  /** There is only one first match. */
  lemma FirstMatchUnique(s: string, i: int, j: int)
    requires FirstMatch(s, i, j)
    ensures forall i', j' :: FirstMatch(s, i', j') ==> i' == i && j' == j
  {
    forall i', j' | FirstMatch(s, i', j') ensures i' == i && j' == j {
      assert i <= i' && i' <= i;
    }
  }

  /** `re.search(r'\{.*"function":.*\}', s, re.DOTALL)`: the span of the
      reported match, or `None` when nothing matches.  The match ends at the
      last closing brace of the whole string. */
  function Search(s: string): (r: Option<(nat, nat)>)
    ensures r.Some? ==> FirstMatch(s, r.value.0, r.value.1)
    ensures r.Some? ==> forall k :: r.value.1 <= k < |s| ==> s[k] != '}'
    ensures r.None? ==> forall i, j :: !MatchAt(s, i, j)
  {
    var q := LastIndexOf(s, '}');
    if q.None? then
      NoMatchFound(s, q, None);
      None
    else
      var p := LastKeyWithin(s, q.value);
      if p.None? then
        NoMatchFound(s, q, p);
        None
      else
        match FirstIndexOf(s[..p.value], '{')
        case None =>
          assert forall k :: 0 <= k < p.value ==> s[k] == s[..p.value][k];
          NoMatchFound(s, q, p);
          None
        case Some(i) =>
          assert forall k :: 0 <= k <= i ==> s[k] == s[..p.value][k];
          FirstMatchFound(s, q.value, p.value, i);
          Some((i, q.value + 1))
  }

  /** `parse_function_call`: the JSON decoding of the reported match, where
      `decode` stands for `json.loads` (`None` for a `JSONDecodeError`).  The
      match begins with a brace, so whatever decodes is an object, i.e. a dict.
      No match, or a match that does not decode, gives no directive. */
  function ParseFunctionCall(response: string, decode: string -> Option<map<string, Value>>)
    : (r: Option<map<string, Value>>)
    ensures (forall i, j :: !MatchAt(response, i, j)) ==> r.None?
    ensures forall i, j :: FirstMatch(response, i, j) ==> r == decode(response[i..j])
    ensures r.Some? ==> exists i, j :: FirstMatch(response, i, j) && r == decode(response[i..j])
  {
    match Search(response)
    case None => None
    case Some((i, j)) =>
      FirstMatchUnique(response, i, j);
      decode(response[i..j])
  }

  /** What `execute_function_call` does: return a result string (and the
      assistant state it leaves), or raise. */
  datatype Execution = Returned(reply: Reply) | Raised

  /** `call.get("function")`. */
  function FunctionName(call: map<string, Value>): Value {
    Get(call, "function", Null)
  }

  /** `call.get("arguments", {})`. */
  function Arguments(call: map<string, Value>): Value {
    Get(call, "arguments", Object(map[], "{}"))
  }

  predicate IsAction(name: Value) {
    name == Str("lookup_car") || name == Str("create_car_profile") || name == Str("lookup_car_by_license_plate")
  }

  /** `execute_function_call`: dispatch on the three action names, with a
      missing argument read as "" (0 for `year`).  Any other name, or none,
      gives the "Unknown function" text.  For the three actions, `arguments`
      present but not an object makes `args.get` raise. */
  function ExecuteFunctionCall(call: map<string, Value>, a: Assistant): (r: Execution)
    ensures r.Raised? <==> IsAction(FunctionName(call)) && !Arguments(call).Object?
    ensures !IsAction(FunctionName(call)) ==>
      r == Returned(Reply(a, "Unknown function: " + Render(FunctionName(call))))
    ensures r.Returned? && FunctionName(call) == Str("lookup_car_by_license_plate") ==>
      r.reply == Reply(a, PLATE_RESULT)
    ensures r.Returned? && FunctionName(call) == Str("create_car_profile") ==>
      r.reply.after.currentCar == Some(Car(
        Get(Arguments(call).fields, "vin", Str("")), Get(Arguments(call).fields, "make", Str("")),
        Get(Arguments(call).fields, "model", Str("")), Get(Arguments(call).fields, "year", Int(0))))
    ensures r.Returned? && FunctionName(call) == Str("lookup_car") ==>
      (r.reply.after == a <==> r.reply.text == NO_CAR_FOUND || a == Assistant(Some(STORED_CAR)))
    // Each action is run on the arguments the directive gives, "" (0 for the
    // year) standing in for a missing one.
    ensures r.Returned? && FunctionName(call) == Str("lookup_car") ==>
      r.reply == LookupCar(a, Get(Arguments(call).fields, "vin", Str("")))
    ensures r.Returned? && FunctionName(call) == Str("create_car_profile") ==>
      r.reply == CreateCarProfile(a, Get(Arguments(call).fields, "vin", Str("")), Get(Arguments(call).fields, "make", Str("")),
                                  Get(Arguments(call).fields, "model", Str("")), Get(Arguments(call).fields, "year", Int(0)))
    ensures r.Returned? && FunctionName(call) == Str("lookup_car_by_license_plate") ==>
      r.reply == LookupCarByLicensePlate(a, Get(Arguments(call).fields, "license_plate", Str("")),
                                         Get(Arguments(call).fields, "state", Str("")))
    ensures r.Returned? && HasCar(a) ==> HasCar(r.reply.after)
  {
    var name := FunctionName(call);
    var args := Arguments(call);
    if !IsAction(name) then
      Returned(Reply(a, "Unknown function: " + Render(name)))
    else
      match args
      case Object(fields, _) =>
        if name == Str("lookup_car") then
          Returned(LookupCar(a, Get(fields, "vin", Str(""))))
        else if name == Str("create_car_profile") then
          Returned(CreateCarProfile(a, Get(fields, "vin", Str("")), Get(fields, "make", Str("")),
                                    Get(fields, "model", Str("")), Get(fields, "year", Int(0))))
        else
          Returned(LookupCarByLicensePlate(a, Get(fields, "license_plate", Str("")), Get(fields, "state", Str(""))))
      case _ => Raised
  }

  /** A directive that names an action but gives no arguments runs it with the
      defaults: no car is found for the empty VIN, and a profile of empty
      strings and year 0 is created. */
  lemma MissingArgumentsDefault(a: Assistant)
    ensures ExecuteFunctionCall(map["function" := Str("lookup_car")], a) == Returned(Reply(a, NO_CAR_FOUND))
    ensures ExecuteFunctionCall(map["function" := Str("create_car_profile")], a)
      == Returned(CreateCarProfile(a, Str(""), Str(""), Str(""), Int(0)))
    ensures ExecuteFunctionCall(map["function" := Str("lookup_car_by_license_plate")], a)
      == Returned(Reply(a, PLATE_RESULT))
  {
  }

  /** A directive without a function name is answered as the unknown function "None". */
  lemma MissingNameIsUnknown(call: map<string, Value>, a: Assistant)
    requires "function" !in call
    ensures ExecuteFunctionCall(call, a) == Returned(Reply(a, "Unknown function: None"))
  {
  }
}
