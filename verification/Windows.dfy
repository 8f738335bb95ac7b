/** Flow-control windows: 32-bit signed counters bounded by 2^31-1
    (section 6.9.1 of RFC 9113). Go's `int32(x)` conversion is written out as
    ToInt32, so that every "cannot wrap" claim is a statement about it. */
module Windows {

  const MAX_WINDOW: int := 0x7FFF_FFFF
  const INITIAL_WINDOW: int := 65535
  const UINT32: int := 0x1_0000_0000

  predicate IsInt32(v: int) {
    -0x8000_0000 <= v <= MAX_WINDOW
  }

  /** Truncation to 32 bits, read back as two's complement. */
  function ToInt32(v: int): (r: int)
    ensures IsInt32(r)
    ensures IsInt32(v) <==> r == v
    ensures (r - v) % UINT32 == 0
  {
    if IsInt32(v) then v else Wrap(v)
  }

  function Wrap(v: int): (r: int)
    ensures IsInt32(r) && (r - v) % UINT32 == 0
  {
    var u := v % UINT32;
    if u <= MAX_WINDOW then u else u - UINT32
  }

  function Min(a: int, b: int): int {
    if a < b then a else b
  }

  /** A window plus a refund, capped rather than wrapped. For a window already
      in range the result is never below the window and never wraps. */
  function AddWindowSaturating(win: int, n: int): (r: int)
    ensures IsInt32(win) && n >= 0 ==> r == Min(win + n, MAX_WINDOW) && win <= r
  {
    var v := win + n;
    if v > MAX_WINDOW then MAX_WINDOW else ToInt32(v)
  }

  datatype Option<+T> = None | Some(value: T)

  /** What one takeSendCredits call deducts from both windows: nothing when
      either window is empty, otherwise the largest amount both windows and the
      caller's request allow. */
  function TakeAmount(stream: int, conn: int, want: int): (r: Option<int>)
    requires want > 0
    ensures r.None? <==> stream <= 0 || conn <= 0
    ensures r.Some? ==> 0 < r.value <= want && r.value <= stream && r.value <= conn
    ensures r.Some? ==> r.value == want || r.value == stream || r.value == conn
  {
    var avail := if conn < stream then conn else stream;
    if avail <= 0 then None
    else if want > avail then Some(avail)
    else Some(want)
  }
}
