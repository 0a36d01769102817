/** The stub helpers of server.swift that the calculator and weather tools call. */
module ServerHelpers {

  /** What `getWeatherData` returns: a temperature and a description of the conditions. */
  datatype WeatherData = WeatherData(temperature: string, conditions: string)

  /** `evaluateExpression`: a placeholder that answers "42" whatever the expression, the empty one included. */
  function EvaluateExpression(expression: string): (r: string)
    ensures r == "42"
  {
    "42"
  }

  /** `getWeatherData`: a placeholder reporting 22 degrees and sunshine for every location and units. */
  function GetWeatherData(location: string, units: string): (r: WeatherData)
    ensures r.temperature == "22"
    ensures r.conditions == "Sunny"
  {
    WeatherData("22", "Sunny")
  }

  /** Neither the location nor the units influence the weather data. */
  lemma WeatherDataIgnoresArguments(l1: string, u1: string, l2: string, u2: string)
    ensures GetWeatherData(l1, u1) == GetWeatherData(l2, u2)
  {
  }
}
