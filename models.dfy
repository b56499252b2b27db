/** The stored mock service record (`backend/app/models/mock_service.py`). */
module Models {
  import opened Wrappers
  import PyDict

  type Headers = PyDict.Dict<string, string>

  /** How a service answers; `OtherStrategy` is a stored value outside the three known ones. */
  datatype Strategy = Proxy | Static | Conditional | OtherStrategy(name: string)

  datatype ServiceType = Rest | Soap

  /** One stored conditional branch (the dict a validated `ConditionalResponse` becomes). */
  datatype Branch = Branch(
    condition: Option<string>,
    responseType: string,
    response: Option<string>,
    proxyUrl: Option<string>,
    statusCode: int,
    headers: Option<Headers>,
    delay: real)

  datatype MockService = MockService(
    id: int,
    name: string,
    path: string,
    methods: seq<string>,
    strategy: Strategy,
    serviceType: ServiceType,
    proxyUrl: Option<string>,
    proxyDelay: real,
    staticResponse: Option<string>,
    staticStatusCode: int,
    staticHeaders: Option<Headers>,
    staticDelay: real,
    conditionCode: Option<string>,
    conditionalResponses: Option<seq<Option<Branch>>>,
    conditionalDelay: real,
    conditionalStatusCode: int,
    conditionalHeaders: Option<Headers>,
    isActive: bool)

  /** Python truthiness of an optional string: present and non-empty. */
  predicate Truthy(s: Option<string>)
  {
    s.Some? && s.value != ""
  }
}
