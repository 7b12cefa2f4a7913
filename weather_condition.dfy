/** The seven weather labels, in declaration order, and their upper-case names
    (the form in which they appear in JSON responses). */
module WeatherConditions {
  import opened Wrappers

  datatype WeatherCondition = Sunny | Cloudy | Rainy | Stormy | Snowy | Foggy | Windy

  /** `WeatherCondition.values()`. */
  const Values: seq<WeatherCondition> := [Sunny, Cloudy, Rainy, Stormy, Snowy, Foggy, Windy]

  /** `name()`. */
  function Name(c: WeatherCondition): (name: string) {
    match c
    case Sunny => "SUNNY"
    case Cloudy => "CLOUDY"
    case Rainy => "RAINY"
    case Stormy => "STORMY"
    case Snowy => "SNOWY"
    case Foggy => "FOGGY"
    case Windy => "WINDY"
  }

  /** `valueOf(name)`; None where Java throws for an unknown name. */
  function ValueOf(name: string): (r: Option<WeatherCondition>)
    ensures r.Some? ==> Name(r.value) == name
  {
    if name == "SUNNY" then Some(Sunny)
    else if name == "CLOUDY" then Some(Cloudy)
    else if name == "RAINY" then Some(Rainy)
    else if name == "STORMY" then Some(Stormy)
    else if name == "SNOWY" then Some(Snowy)
    else if name == "FOGGY" then Some(Foggy)
    else if name == "WINDY" then Some(Windy)
    else None
  }

  /** `values()` lists every condition exactly once: seven in all. */
  lemma ValuesListsEachConditionOnce(c: WeatherCondition)
    ensures |Values| == 7
    ensures c in Values
    ensures forall i, j :: 0 <= i < j < |Values| ==> Values[i] != Values[j]
  {
  }

  /** Every condition's name is read back as that condition. */
  lemma ValueOfName(c: WeatherCondition)
    ensures ValueOf(Name(c)) == Some(c)
  {
  }
}
