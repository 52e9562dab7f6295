/** The values the runner works with. Their Rust definitions live in
    `structs.rs` and the `network` module, which are not part of this model:
    only the fields the runner reads or writes are kept. */
module Structs {
  import opened Wrappers

  /** Where candidate parameters are placed in a request; the runner only asks
      whether it is `Headers`. */
  datatype InjectionPlace = Query | Body | Headers

  /** What the stability learner found out about baseline noise. */
  datatype Stable = Stable(body: bool, reflections: bool)

  /** `Stable::default()`, assuming it is derived: both flags false. */
  const DefaultStable := Stable(false, false)

  /** Parameter name mapped to its candidate values. A Rust `HashMap` has no
      iteration order, so the model fixes one: the order of this sequence. */
  type CustomParameters = seq<(string, seq<string>)>

  /** The read-only run configuration (the fields the runner consults). */
  datatype Config = Config(
    verify: bool,
    reflectedOnly: bool,
    disableCustomParameters: bool,
    learnRequestsCount: nat,
    replayProxy: string,
    customParameters: CustomParameters)

  /** A discovered parameter: its name plus the evidence the discovery loop kept. */
  datatype FoundParameter = FoundParameter(name: string, diffs: seq<string>)

  /** The request a response came from; only its parameters are kept. */
  datatype Request = Request(parameters: seq<(string, string)>)

  /** A captured response. `request` is the transient back-link to the request
      that produced it; the durable baseline has it set to `None`. */
  datatype Response = Response(
    time: nat,
    code: nat,
    headers: seq<(string, string)>,
    text: string,
    reflectedParameters: seq<string>,
    additionalParameter: Option<string>,
    request: Option<Request>)

  /** The result of `Response::compare` against the baseline and known diffs. */
  datatype Comparison = Comparison(codeDiffers: bool, newDiffs: seq<string>)

  /** The result of one `check_parameters` call: diffs observed and parameters found. */
  datatype Discovery = Discovery(diffs: seq<string>, found: seq<FoundParameter>)

  /** The caller's `Vec<String>` of candidate names, which construction extends in place. */
  class ParamList {
    var items: seq<string>

    constructor (items: seq<string>)
      ensures this.items == items
    {
      this.items := items;
    }
  }

  /** The request template. Construction writes `amountOfReflections` into the
      caller's template and keeps a clone of it. */
  class RequestDefaults {
    var injectionPlace: InjectionPlace
    var parameters: seq<(string, string)>
    var amountOfReflections: nat

    constructor (injectionPlace: InjectionPlace, parameters: seq<(string, string)>, amountOfReflections: nat)
      ensures this.injectionPlace == injectionPlace
      ensures this.parameters == parameters
      ensures this.amountOfReflections == amountOfReflections
    {
      this.injectionPlace := injectionPlace;
      this.parameters := parameters;
      this.amountOfReflections := amountOfReflections;
    }

    /** `#[derive(Clone)]`: a new object with the same field values. */
    method Clone() returns (c: RequestDefaults)
      ensures fresh(c)
      ensures c.injectionPlace == injectionPlace
      ensures c.parameters == parameters
      ensures c.amountOfReflections == amountOfReflections
    {
      c := new RequestDefaults(injectionPlace, parameters, amountOfReflections);
    }
  }
}
