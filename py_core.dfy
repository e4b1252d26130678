/** The older Python implementation of starting and describing an instance refresh: a
    dataclass of options with defaults, and two methods that build keyword arguments for a
    boto3 Auto Scaling client and read its response dictionaries.

    Python values are a small sum type; a dictionary is a map from string keys. The boto3
    client is an object that answers from a script and logs the keyword arguments of each call;
    an exception it raises, or a `KeyError` of the code itself, is a `Failure`. */
module PyCore {
  import opened Wrappers
  import Refresh
  import opened GoInts

  /** The Python values that occur in requests and responses. */
  datatype PyValue =
    | PyBool(b: bool)
    | PyInt(i: int)
    | PyStr(s: string)
    | PyList(items: seq<PyValue>)
    | PyDict(entries: map<string, PyValue>)

  type Dict = map<string, PyValue>

  /** An exception raised out of start_refresh or describe_refresh. */
  datatype PyException =
    | ClientError(message: string)   // raised by the boto3 client, propagated as it came
    | KeyError(key: PyValue)         // a subscript names a key the dictionary lacks
    | TypeError(message: string)     // a subscript of a value that has none

  /** The options dataclass; `RefreshOptions()` is the all-defaults instance. */
  datatype RefreshOptions = RefreshOptions(
    minHealthyPercentage: int := 90,
    instanceWarmup: Option<int> := None,
    skipMatching: bool := false)

  /** The `Preferences` dictionary start_refresh sends: exactly MinHealthyPercentage and
      SkipMatching with the option values, plus InstanceWarmup exactly when a warm-up is set. */
  function Preferences(options: RefreshOptions): (d: Dict)
    ensures "MinHealthyPercentage" in d && d["MinHealthyPercentage"] == PyInt(options.minHealthyPercentage)
    ensures "SkipMatching" in d && d["SkipMatching"] == PyBool(options.skipMatching)
    ensures "InstanceWarmup" in d <==> options.instanceWarmup.Some?
    ensures options.instanceWarmup.Some? ==> d["InstanceWarmup"] == PyInt(options.instanceWarmup.value)
    ensures d.Keys == {"MinHealthyPercentage", "SkipMatching"} + (if options.instanceWarmup.Some? then {"InstanceWarmup"} else {})
  {
    var base := map["MinHealthyPercentage" := PyInt(options.minHealthyPercentage),
                    "SkipMatching" := PyBool(options.skipMatching)];
    if options.instanceWarmup.Some? then base["InstanceWarmup" := PyInt(options.instanceWarmup.value)] else base
  }

  /** The keyword arguments of the start call: the group, the rolling strategy and the
      preferences. */
  function StartKwargs(asgName: string, options: RefreshOptions): Dict {
    map["AutoScalingGroupName" := PyStr(asgName), "Strategy" := PyStr("Rolling"),
        "Preferences" := PyDict(Preferences(options))]
  }

  /** The keyword arguments of the describe call: the group and a one-element id list. */
  function DescribeKwargs(asgName: string, refreshId: string): Dict {
    map["AutoScalingGroupName" := PyStr(asgName), "InstanceRefreshIds" := PyList([PyStr(refreshId)])]
  }

  /** Python truthiness of a value. */
  predicate Truthy(v: PyValue) {
    match v
    case PyBool(b) => b
    case PyInt(i) => i != 0
    case PyStr(s) => s != []
    case PyList(items) => items != []
    case PyDict(entries) => entries != map[]
  }

  /** What start_refresh returns for a start response: the remote id under InstanceRefreshId
      and the caller's group name, and nothing else; a response without an id raises
      `KeyError`. */
  function StartReturn(response: Result<Dict, PyException>, asgName: string): (r: Result<Dict, PyException>)
    ensures response.Failure? ==> r == response
    ensures response.Success? && "InstanceRefreshId" !in response.value ==> r == Failure(KeyError(PyStr("InstanceRefreshId")))
    ensures r.Success? ==> r.value.Keys == {"InstanceRefreshId", "AutoScalingGroupName"}
    ensures r.Success? ==> r.value["InstanceRefreshId"] == response.value["InstanceRefreshId"]
    ensures r.Success? ==> r.value["AutoScalingGroupName"] == PyStr(asgName)
  {
    match response
    case Failure(e) => Failure(e)
    case Success(resp) =>
      if "InstanceRefreshId" !in resp then Failure(KeyError(PyStr("InstanceRefreshId")))
      else Success(map["InstanceRefreshId" := resp["InstanceRefreshId"], "AutoScalingGroupName" := PyStr(asgName)])
  }

  /** Python's `v[0]` on a non-empty value: the first item of a list, the first character of
      a string; a dictionary (whose keys here are strings) has no key 0, and a number or a
      boolean cannot be subscripted. */
  function First(v: PyValue): (r: Result<PyValue, PyException>)
    requires Truthy(v)
    ensures v.PyList? ==> r == Success(v.items[0])
    ensures v.PyStr? ==> r == Success(PyStr([v.s[0]]))
    ensures v.PyDict? ==> r == Failure(KeyError(PyInt(0)))
    ensures v.PyBool? || v.PyInt? ==> r.Failure? && r.error.TypeError?
  {
    match v
    case PyList(items) => Success(items[0])
    case PyStr(s) => Success(PyStr([s[0]]))
    case PyDict(_) => Failure(KeyError(PyInt(0)))
    case _ => Failure(TypeError("object is not subscriptable"))
  }

  /** What describe_refresh returns for a describe response: the first record when the
      InstanceRefreshes value is truthy, the empty dictionary `{}` when it is not; a response
      without that key raises `KeyError`. */
  function DescribeReturn(response: Result<Dict, PyException>): (r: Result<PyValue, PyException>)
    ensures response.Failure? ==> r == Failure(response.error)
    ensures response.Success? && "InstanceRefreshes" !in response.value ==>
              r == Failure(KeyError(PyStr("InstanceRefreshes")))
    ensures response.Success? && "InstanceRefreshes" in response.value ==>
              var v := response.value["InstanceRefreshes"];
              && (v == PyList([]) ==> r == Success(PyDict(map[])))
              && (v.PyList? && v.items != [] ==> r == Success(v.items[0]))
  {
    match response
    case Failure(e) => Failure(e)
    case Success(resp) =>
      if "InstanceRefreshes" !in resp then Failure(KeyError(PyStr("InstanceRefreshes")))
      else
        var v := resp["InstanceRefreshes"];
        if Truthy(v) then First(v) else Success(PyDict(map[]))
  }

  /** The boto3 Auto Scaling client: each call logs its keyword arguments and answers with
      the scripted response of its kind. */
  class Boto3Client {
    const startResponse: Result<Dict, PyException>
    const describeResponse: Result<Dict, PyException>
    var startCalls: seq<Dict>
    var describeCalls: seq<Dict>

    constructor (startResponse: Result<Dict, PyException>, describeResponse: Result<Dict, PyException>)
      ensures this.startResponse == startResponse && this.describeResponse == describeResponse
      ensures startCalls == [] && describeCalls == []
    {
      this.startResponse := startResponse;
      this.describeResponse := describeResponse;
      startCalls := [];
      describeCalls := [];
    }

    method StartInstanceRefresh(kwargs: Dict) returns (response: Result<Dict, PyException>)
      modifies this`startCalls
      ensures response == startResponse && startCalls == old(startCalls) + [kwargs]
    {
      response := startResponse;
      startCalls := startCalls + [kwargs];
    }

    method DescribeInstanceRefreshes(kwargs: Dict) returns (response: Result<Dict, PyException>)
      modifies this`describeCalls
      ensures response == describeResponse && describeCalls == old(describeCalls) + [kwargs]
    {
      response := describeResponse;
      describeCalls := describeCalls + [kwargs];
    }
  }

  /** ASGRefresh: starts and describes instance refreshes through its client. */
  class ASGRefresh {
    const client: Boto3Client

    constructor (client: Boto3Client)
      ensures this.client == client
    {
      this.client := client;
    }

    /** Sends one start call whose preferences are built from `options`, and returns the id
        with the caller's group name. */
    method StartRefresh(asgName: string, options: RefreshOptions) returns (r: Result<Dict, PyException>)
      modifies client`startCalls
      ensures client.startCalls == old(client.startCalls) + [StartKwargs(asgName, options)]
      ensures r == StartReturn(client.startResponse, asgName)
    {
      var preferences := map["MinHealthyPercentage" := PyInt(options.minHealthyPercentage),
                             "SkipMatching" := PyBool(options.skipMatching)];
      if options.instanceWarmup.Some? {
        preferences := preferences["InstanceWarmup" := PyInt(options.instanceWarmup.value)];
      }
      var response := client.StartInstanceRefresh(
        map["AutoScalingGroupName" := PyStr(asgName), "Strategy" := PyStr("Rolling"),
            "Preferences" := PyDict(preferences)]);
      if response.Failure? {
        return Failure(response.error);
      }
      if "InstanceRefreshId" !in response.value {
        return Failure(KeyError(PyStr("InstanceRefreshId")));
      }
      return Success(map["InstanceRefreshId" := response.value["InstanceRefreshId"],
                         "AutoScalingGroupName" := PyStr(asgName)]);
    }

    /** Sends one describe call for exactly one id and returns the first record, or `{}`. */
    method DescribeRefresh(asgName: string, refreshId: string) returns (r: Result<PyValue, PyException>)
      modifies client`describeCalls
      ensures client.describeCalls == old(client.describeCalls) + [DescribeKwargs(asgName, refreshId)]
      ensures r == DescribeReturn(client.describeResponse)
    {
      var response := client.DescribeInstanceRefreshes(DescribeKwargs(asgName, refreshId));
      if response.Failure? {
        return Failure(response.error);
      }
      if "InstanceRefreshes" !in response.value {
        return Failure(KeyError(PyStr("InstanceRefreshes")));
      }
      var refreshes := response.value["InstanceRefreshes"];
      if Truthy(refreshes) {
        return First(refreshes);
      }
      return Success(PyDict(map[]));
    }
  }

  /** The default options send a minimum healthy percentage of 90, skip-matching off, and
      neither a warm-up nor a maximum healthy percentage. */
  lemma DefaultPreferences()
    ensures Preferences(RefreshOptions()).Keys == {"MinHealthyPercentage", "SkipMatching"}
    ensures Preferences(RefreshOptions())["MinHealthyPercentage"] == PyInt(90)
    ensures Preferences(RefreshOptions())["SkipMatching"] == PyBool(false)
  {
  }

  /** The Python preferences carry the same values as the Go request for the same options
      (without a maximum, which Python cannot send, and with percentages that fit 32 bits):
      the same minimum and skip-matching, and a warm-up on both sides or on neither. */
  lemma PreferencesAgreeWithGo(options: RefreshOptions, goOptions: Refresh.RefreshOptions,
                               input: Refresh.StartInstanceRefreshInput, asgName: string)
    requires -0x8000_0000 <= options.minHealthyPercentage < 0x8000_0000
    requires goOptions.minHealthyPercentage as int == options.minHealthyPercentage
    requires goOptions.skipMatching == options.skipMatching
    requires goOptions.maxHealthyPercentage == None
    requires goOptions.instanceWarmup.Some? <==> options.instanceWarmup.Some?
    requires goOptions.instanceWarmup.Some? ==> goOptions.instanceWarmup.value as int == options.instanceWarmup.value
    requires Refresh.RequestFor(input, asgName, goOptions)
    ensures var prefs := Preferences(options); var sent := input.preferences.value;
      && prefs["MinHealthyPercentage"] == PyInt(sent.minHealthyPercentage.value as int)
      && prefs["SkipMatching"] == PyBool(sent.skipMatching.value)
      && ("InstanceWarmup" in prefs <==> sent.instanceWarmup.Some?)
      && (sent.instanceWarmup.Some? ==> prefs["InstanceWarmup"] == PyInt(sent.instanceWarmup.value as int))
      && sent.maxHealthyPercentage == None
  {
    WrapInt32Fits(options.minHealthyPercentage);
  }

  /** The dictionary boto3 gives for one status record: its status, and its id and percentage
      when the record has them. */
  function RecordDict(r: Refresh.InstanceRefresh): (d: Dict)
    ensures "Status" in d && d["Status"] == PyStr(r.status)
    ensures "InstanceRefreshId" in d <==> r.instanceRefreshId.Some?
    ensures "PercentageComplete" in d <==> r.percentageComplete.Some?
  {
    var d := map["Status" := PyStr(r.status)];
    var d := if r.instanceRefreshId.Some? then d["InstanceRefreshId" := PyStr(r.instanceRefreshId.value)] else d;
    if r.percentageComplete.Some? then d["PercentageComplete" := PyInt(r.percentageComplete.value as int)] else d
  }

  /** The describe response boto3 gives where the Go client gets `reply`: a client error, or
      the records as a list of dictionaries. */
  function DescribeResponseFor(reply: Refresh.DescribeReply): Result<Dict, PyException> {
    match reply
    case DescribeRejected(cause) => Failure(ClientError(cause))
    case Described(records) =>
      Success(map["InstanceRefreshes" := PyList(seq(|records|, i requires 0 <= i < |records| => PyDict(RecordDict(records[i]))))])
  }

  /** The two implementations read a describe response alike: both fail on a client error,
      Python's `{}` is exactly Go's absent result (a real record is never empty), and otherwise
      both return the first record. */
  lemma DescribeAgreesWithGo(reply: Refresh.DescribeReply)
    ensures var goResult := Refresh.DescribeResult(reply);
      var pyResult := DescribeReturn(DescribeResponseFor(reply));
      && (pyResult.Failure? <==> goResult.Failure?)
      && (pyResult == Success(PyDict(map[])) <==> goResult == Success(None))
      && (goResult.Success? && goResult.value.Some? ==> pyResult == Success(PyDict(RecordDict(goResult.value.value))))
  {
    if reply.Described? && |reply.instanceRefreshes| > 0 {
      var d := RecordDict(reply.instanceRefreshes[0]);
      assert "Status" in d;
    }
  }
}
