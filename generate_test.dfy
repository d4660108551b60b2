/** The admin test generator: the distribution of the fifteen questions over the four
    question types, the guard that keeps that distribution within fifteen, and the request
    that creates a test link (src/pages/admin/GenerateTest.jsx). */
module GenerateTest {
  import opened Common

  const TotalQuestions: int := 15

  datatype Kind = Single | Multiple | TrueFalse | Written

  /** How many questions of each type the test draws. The number inputs accept any
      integer typed in; only the guard limits the values. */
  datatype Distribution = Distribution(single: int, multiple: int, trueFalse: int, written: int)

  function Get(d: Distribution, k: Kind): int {
    match k
    case Single => d.single
    case Multiple => d.multiple
    case TrueFalse => d.trueFalse
    case Written => d.written
  }

  /** `{ ...distribution, [t.key]: value }` */
  function Set(d: Distribution, k: Kind, v: int): (r: Distribution)
    ensures Get(r, k) == v
    ensures forall k2 | k2 != k :: Get(r, k2) == Get(d, k2)
  {
    match k
    case Single => d.(single := v)
    case Multiple => d.(multiple := v)
    case TrueFalse => d.(trueFalse := v)
    case Written => d.(written := v)
  }

  /** The sum of the four counts (`Object.values(...).reduce`). */
  function Total(d: Distribution): int {
    d.single + d.multiple + d.trueFalse + d.written
  }

  /** Replacing one count changes the total by the difference. */
  lemma SetTotal(d: Distribution, k: Kind, v: int)
    ensures Total(Set(d, k, v)) == Total(d) - Get(d, k) + v
  {
  }

  /** The distribution the page starts with: 7 + 4 + 2 + 2. */
  function InitialDistribution(): (d: Distribution)
    ensures Total(d) == TotalQuestions
    ensures d.single == 7 && d.multiple == 4 && d.trueFalse == 2 && d.written == 2
  {
    Distribution(7, 4, 2, 2)
  }

  /** A change of one count is kept only when the new total stays within fifteen. */
  function EditDistribution(d: Distribution, k: Kind, v: int): (r: Distribution)
    ensures Total(d) - Get(d, k) + v <= TotalQuestions ==>
      Get(r, k) == v && forall k2 | k2 != k :: Get(r, k2) == Get(d, k2)
    ensures Total(d) - Get(d, k) + v > TotalQuestions ==> r == d
  {
    SetTotal(d, k, v);
    var updated := Set(d, k, v);
    if Total(updated) <= TotalQuestions then updated else d
  }

  datatype Edit = Edit(kind: Kind, value: int)

  function ApplyEdits(d: Distribution, edits: seq<Edit>): Distribution
    decreases |edits|
  {
    if edits == [] then d else ApplyEdits(EditDistribution(d, edits[0].kind, edits[0].value), edits[1..])
  }

  /** Whatever the admin types, the total never exceeds fifteen. */
  lemma {:induction false} EditsKeepTotal(d: Distribution, edits: seq<Edit>)
    requires Total(d) <= TotalQuestions
    ensures Total(ApplyEdits(d, edits)) <= TotalQuestions
    decreases |edits|
  {
    if edits != [] {
      var e := edits[0];
      SetTotal(d, e.kind, e.value);
      EditsKeepTotal(EditDistribution(d, e.kind, e.value), edits[1..]);
    }
  }

  /** The generate button: a position chosen, no request running, exactly fifteen
      questions. */
  predicate GenerateEnabled(positionId: string, loading: bool, d: Distribution) {
    positionId != "" && !loading && Total(d) == TotalQuestions
  }

  /** The red "Total must equal 15" line. */
  predicate WarningShown(d: Distribution) {
    Total(d) != TotalQuestions
  }

  /** While nothing is loading and a position is chosen, the button is enabled exactly
      when the warning is hidden. */
  lemma EnabledIffNoWarning(positionId: string, d: Distribution)
    requires positionId != ""
    ensures GenerateEnabled(positionId, false, d) <==> !WarningShown(d)
    ensures GenerateEnabled(positionId, true, d) == false
  {
  }

  /** The body of the create-tests post. */
  datatype CreateTestRequest = CreateTestRequest(positionId: string, durationMinutes: int,
                                                 totalQuestions: int, distribution: Distribution)

  class GeneratePage {
    var positions: seq<Position>
    var positionId: string
    var duration: int
    var link: string
    var loading: bool
    var distribution: Distribution

    ghost predicate Valid()
      reads this
    {
      Total(distribution) <= TotalQuestions
    }

    constructor ()
      ensures positions == [] && positionId == "" && duration == 30 && link == "" && !loading
      ensures distribution == InitialDistribution() && Valid()
    {
      positions := [];
      positionId := "";
      duration := 30;
      link := "";
      loading := false;
      distribution := InitialDistribution();
    }

    /** The positions request settles; a failure is not handled and changes nothing. */
    method PositionsLoaded(response: Response<seq<Position>>)
      requires Valid()
      modifies this
      ensures positions == (if response.Ok? then response.data else old(positions))
      ensures positionId == old(positionId) && duration == old(duration) && link == old(link)
      ensures loading == old(loading) && distribution == old(distribution) && Valid()
    {
      if response.Ok? {
        positions := response.data;
      }
    }

    method SelectPosition(id: string)
      requires Valid()
      modifies this
      ensures positionId == id
      ensures positions == old(positions) && duration == old(duration) && link == old(link)
      ensures loading == old(loading) && distribution == old(distribution) && Valid()
    {
      positionId := id;
    }

    method SetDuration(minutes: int)
      requires Valid()
      modifies this
      ensures duration == minutes
      ensures positions == old(positions) && positionId == old(positionId) && link == old(link)
      ensures loading == old(loading) && distribution == old(distribution) && Valid()
    {
      duration := minutes;
    }

    /** A count input changes. */
    method EditCount(k: Kind, value: int)
      requires Valid()
      modifies this
      ensures distribution == EditDistribution(old(distribution), k, value)
      ensures positions == old(positions) && positionId == old(positionId)
      ensures duration == old(duration) && link == old(link) && loading == old(loading)
      ensures Valid()
    {
      var updated := Set(distribution, k, value);
      var sum := Total(updated);
      SetTotal(distribution, k, value);
      if sum <= TotalQuestions {
        distribution := updated;
      }
    }

    /** A press of the generate button. When it is enabled, the page starts loading and
        posts a request whose distribution sums to the total it announces. */
    method Generate() returns (request: Option<CreateTestRequest>)
      requires Valid()
      modifies this
      ensures request.Some? <==> GenerateEnabled(old(positionId), old(loading), old(distribution))
      ensures request.Some? ==>
        && request.value == CreateTestRequest(positionId, duration, TotalQuestions, distribution)
        && request.value.totalQuestions == Total(request.value.distribution) == 15
        && loading
      ensures request.None? ==> loading == old(loading)
      ensures positions == old(positions) && positionId == old(positionId) && duration == old(duration)
      ensures link == old(link) && distribution == old(distribution) && Valid()
    {
      if positionId == "" || loading || Total(distribution) != TotalQuestions {
        return None;
      }
      loading := true;
      request := Some(CreateTestRequest(positionId, duration, TotalQuestions, distribution));
    }

    /** The create-tests request settles: the link is shown on success, and the spinner
        goes either way. */
    method GenerateSettled(response: Response<string>)
      requires Valid()
      modifies this
      ensures link == (if response.Ok? then response.data else old(link))
      ensures !loading
      ensures positions == old(positions) && positionId == old(positionId) && duration == old(duration)
      ensures distribution == old(distribution) && Valid()
    {
      if response.Ok? {
        link := response.data;
      }
      loading := false;
    }
  }
}
