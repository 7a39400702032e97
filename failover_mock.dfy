/**
 * The randomness the simulated providers draw on (services/generativeAI/utils/failoverMock.utils.ts).
 * Each `Math.random()` result is an input of type `Unit`; random texts are inputs too.
 */
module FailoverMock {
  /** A value `Math.random()` can return. */
  type Unit = u: real | 0.0 <= u < 1.0

  /** `randomInt(min, max)`: `floor(random * (max - min + 1)) + min`, inclusive at both ends. */
  function RandomInt(min: int, max: int, u: Unit): (r: int)
    requires min <= max
    ensures min <= r <= max
  {
    var span := (max - min + 1) as real;
    ScaledBelow(u, span);
    (u * span).Floor + min
  }

  lemma ScaledBelow(u: Unit, span: real)
    requires span > 0.0
    ensures 0.0 <= u * span < span
  {
    assert span - u * span == (1.0 - u) * span;
    assert (1.0 - u) * span > 0.0;
  }

  /** `chance(probability)`: true when the draw falls below the probability. */
  predicate Chance(probability: real, u: Unit) { u < probability }

  /** The alphabet `randomTextResponse` picks from: ASCII letters and the space. */
  predicate IsMockChar(c: char) { 'A' <= c <= 'Z' || 'a' <= c <= 'z' || c == ' ' }

  /** A text `randomTextResponse` can return: 20 to 100 characters of the alphabet. */
  type MockText = s: string | 20 <= |s| <= 100 && forall i :: 0 <= i < |s| ==> IsMockChar(s[i])
    witness "AAAAAAAAAAAAAAAAAAAA"

  /**
   * The random values one `callLLM` invocation consumes, in the order the adapters draw
   * them: latency choice, latency, failure, rate limit, retry delay, then the texts.
   * Each adapter reads only the ones it draws.
   */
  datatype Draws = Draws(
    pick: Unit, latency: Unit, failure: Unit, rateLimit: Unit, retryAfter: Unit,
    text1: MockText, text2: MockText)
}
