/** The scalar resolvers that use no state: `hello` and `quoteOfTheDay`
    (server.js:72-77). `random` only returns a uniform number and is not
    modelled. */
module Scalars {

  /** `hello()`. */
  const Greeting: string := "Hello world!"

  /** The two quotes `quoteOfTheDay` chooses between. */
  const Quotes: set<string> := {"Take it easy", "Salvation comes from Jesus"}

  /** `quoteOfTheDay` (server.js:75-77): the first quote when the random
      number is below one half, the second otherwise; `belowHalf` is the
      outcome of that comparison. */
  function QuoteOfTheDay(belowHalf: bool): (q: string)
    ensures q in Quotes
  {
    if belowHalf then "Take it easy" else "Salvation comes from Jesus"
  }

  /** The two outcomes of the coin give the two different quotes, so each
      quote is reachable. */
  lemma QuotesBothReachable()
    ensures {QuoteOfTheDay(true), QuoteOfTheDay(false)} == Quotes
    ensures QuoteOfTheDay(true) != QuoteOfTheDay(false)
  {
  }
}
