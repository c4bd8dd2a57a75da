/** Time as integer milliseconds since the epoch, the value of `Date.getTime()`. */
module Clock {

  const MS_PER_HOUR: int := 1000 * 60 * 60
  const MS_PER_DAY: int := 1000 * 60 * 60 * 24

  /**
   * `Math.floor((expiry - now) / (1000 * 60 * 60 * 24))`: whole days until `expiry`,
   * rounded towards minus infinity, so an expiry earlier today counts as -1 day.
   */
  function DaysUntil(expiry: int, now: int): (days: int)
    ensures days * MS_PER_DAY <= expiry - now < (days + 1) * MS_PER_DAY
  {
    (expiry - now) / MS_PER_DAY
  }

  /** `d.setDate(d.getDate() + n)`, taken as a fixed duration of `n` days. */
  function AddDays(t: int, n: int): (r: int)
    ensures DaysUntil(r, t) == n
  {
    t + n * MS_PER_DAY
  }

  /** `d.setHours(d.getHours() + n)`, taken as a fixed duration of `n` hours. */
  function AddHours(t: int, n: int): (r: int)
    ensures r - t == n * MS_PER_HOUR
  {
    t + n * MS_PER_HOUR
  }
}
