/** The score API: `POST` stores a clear and answers with its rank, `GET`
    answers with the leaderboard and, for a nickname, that player's best
    rank.  The `scores` table is a sequence of rows; the database's own
    choices (the row id, the order among equal times) are parameters or a
    fixed stable order. */
module Scores {
  import opened Util
  import TimeFormat

  const NICKNAME_MAX: nat := 12
  const DEFAULT_LIMIT: string := "100"

  datatype Row = Row(id: string, nickname: string, clearTime: int, maxHeight: Option<int>)

  /** The parsed JSON body of a `POST`; an absent field is `None`. */
  datatype ScoreRequest = ScoreRequest(nickname: Option<string>, clearTime: Option<int>, maxHeight: Option<int>)

  datatype PostResponse =
    | Saved(rank: nat, data: Option<Row>)  // status 200, `success: true`
    | MissingFields                         // status 400

  function Status(r: PostResponse): (code: int)
    ensures code == 200 || code == 400
    ensures code == 400 <==> r.MissingFields?
  {
    if r.MissingFields? then 400 else 200
  }

  /** JavaScript truthiness of an optional string: present and not empty. */
  predicate Truthy(s: Option<string>)
  {
    s.Some? && s.value != ""
  }

  /** `nickname.slice(0, 12)`. */
  function Truncate(s: string): (r: string)
    ensures |r| <= NICKNAME_MAX && r <= s
    ensures |r| == if |s| < NICKNAME_MAX then |s| else NICKNAME_MAX
  {
    if |s| <= NICKNAME_MAX then s else s[..NICKNAME_MAX]
  }

  /** Truncation keeps short names and is idempotent. */
  lemma TruncateRules(s: string)
    ensures |s| <= NICKNAME_MAX ==> Truncate(s) == s
    ensures Truncate(Truncate(s)) == Truncate(s)
    ensures s != "" ==> Truncate(s) != ""
  {
  }

  // ---------------------------------------------------------------------
  // Counting faster clears

  /** The rows whose `clear_time` is strictly less than `t` (the `.lt` count). */
  function CountFaster(rows: seq<Row>, t: int): (n: nat)
    ensures n <= |rows|
    decreases |rows|
  {
    if |rows| == 0 then 0
    else CountFaster(rows[..|rows| - 1], t) + (if rows[|rows| - 1].clearTime < t then 1 else 0)
  }

  /** `(count || 0) + 1`. */
  function RankOf(rows: seq<Row>, t: int): (r: nat)
    ensures 1 <= r <= |rows| + 1
  {
    CountFaster(rows, t) + 1
  }

  lemma {:induction false} CountFasterAppend(u: seq<Row>, v: seq<Row>, t: int)
    ensures CountFaster(u + v, t) == CountFaster(u, t) + CountFaster(v, t)
    decreases |v|
  {
    if |v| > 0 {
      assert (u + v)[..|u + v| - 1] == u + v[..|v| - 1];
      assert (u + v)[|u + v| - 1] == v[|v| - 1];
      CountFasterAppend(u, v[..|v| - 1], t);
    } else {
      assert u + v == u;
    }
  }

  /** The count is the number of indices whose time is below `t`. */
  lemma {:induction false} CountFasterIndices(rows: seq<Row>, t: int)
    ensures CountFaster(rows, t) == |set k | 0 <= k < |rows| && rows[k].clearTime < t|
    decreases |rows|
  {
    if |rows| > 0 {
      var n := |rows| - 1;
      CountFasterIndices(rows[..n], t);
      FasterSplit(rows, t);
      assert n !in set k | 0 <= k < n && rows[..n][k].clearTime < t;
    }
  }

  /** The faster indices of a table are those of all but its last row, and
      the last one when it is faster. */
  lemma FasterSplit(rows: seq<Row>, t: int)
    requires |rows| > 0
    ensures var n := |rows| - 1;
      (set k | 0 <= k < |rows| && rows[k].clearTime < t) ==
      (set k | 0 <= k < n && rows[..n][k].clearTime < t) + (if rows[n].clearTime < t then {n} else {})
  {
    var n := |rows| - 1;
    var all := set k | 0 <= k < |rows| && rows[k].clearTime < t;
    var before := set k | 0 <= k < n && rows[..n][k].clearTime < t;
    var last: set<int> := if rows[n].clearTime < t then {n} else {};
    forall k | k in all ensures k in before + last {
      if k < n {
        assert rows[..n][k] == rows[k];
      }
    }
    forall k | k in before + last ensures k in all {
      if k < n {
        assert rows[..n][k] == rows[k];
      }
    }
  }

  /** A slower time never has fewer faster rows. */
  lemma {:induction false} CountFasterMonotone(rows: seq<Row>, t1: int, t2: int)
    requires t1 <= t2
    ensures CountFaster(rows, t1) <= CountFaster(rows, t2)
    decreases |rows|
  {
    if |rows| > 0 {
      CountFasterMonotone(rows[..|rows| - 1], t1, t2);
    }
  }

  /** The count depends only on the rows, not on their order. */
  lemma {:induction false} CountFasterPermutation(a: seq<Row>, b: seq<Row>, t: int)
    requires multiset(a) == multiset(b)
    ensures CountFaster(a, t) == CountFaster(b, t)
    decreases |a|
  {
    if |a| > 0 {
      var x := a[|a| - 1];
      assert x in multiset(b);
      var j :| 0 <= j < |b| && b[j] == x;
      var rest := b[..j] + b[j + 1..];
      assert b == b[..j] + [x] + b[j + 1..];
      assert a == a[..|a| - 1] + [x];
      assert multiset(a) == multiset(a[..|a| - 1]) + multiset{x};
      assert multiset(b) == multiset(b[..j]) + multiset{x} + multiset(b[j + 1..]);
      assert multiset(rest) == multiset(b[..j]) + multiset(b[j + 1..]);
      assert multiset(a[..|a| - 1]) == multiset(a) - multiset{x};
      assert multiset(rest) == multiset(b) - multiset{x};
      CountFasterPermutation(a[..|a| - 1], rest, t);
      CountFasterAppend(b[..j] + [x], b[j + 1..], t);
      CountFasterAppend(b[..j], [x], t);
      CountFasterAppend(b[..j], b[j + 1..], t);
      assert CountFaster([x], t) == CountFaster([], t) + (if x.clearTime < t then 1 else 0);
    } else {
      assert b == [];
    }
  }

  /** Appending a row with time `t` does not change the count below `t`: a
      new clear never counts against itself. */
  lemma NewRowNotCounted(rows: seq<Row>, row: Row)
    ensures CountFaster(rows + [row], row.clearTime) == CountFaster(rows, row.clearTime)
  {
    assert (rows + [row])[..|rows|] == rows;
  }

  // ---------------------------------------------------------------------
  // Ordering

  /** Ascending by `clear_time`. */
  predicate Sorted(s: seq<Row>)
  {
    forall i, j :: 0 <= i < j < |s| ==> s[i].clearTime <= s[j].clearTime
  }

  /** Put `x` after every row that is not slower than it. */
  function Insert(x: Row, s: seq<Row>): (r: seq<Row>)
    ensures |r| == |s| + 1
    ensures multiset(r) == multiset(s) + multiset{x}
    decreases |s|
  {
    if |s| == 0 then [x]
    else if s[0].clearTime <= x.clearTime then
      assert s == [s[0]] + s[1..];
      [s[0]] + Insert(x, s[1..])
    else [x] + s
  }

  /** `.order('clear_time', { ascending: true })`, as an insertion sort. */
  function SortByTime(rows: seq<Row>): (r: seq<Row>)
    ensures |r| == |rows|
    ensures multiset(r) == multiset(rows)
    decreases |rows|
  {
    if |rows| == 0 then []
    else
      assert rows == rows[..|rows| - 1] + [rows[|rows| - 1]];
      Insert(rows[|rows| - 1], SortByTime(rows[..|rows| - 1]))
  }

  lemma {:induction false} InsertSorted(x: Row, s: seq<Row>)
    requires Sorted(s)
    ensures Sorted(Insert(x, s))
    decreases |s|
  {
    if |s| > 0 && s[0].clearTime <= x.clearTime {
      var tail := s[1..];
      InsertSorted(x, tail);
      var r := Insert(x, tail);
      forall j | 0 <= j < |r|
        ensures s[0].clearTime <= r[j].clearTime
      {
        assert r[j] in multiset(tail) + multiset{x};
        if r[j] in multiset(tail) {
          var m :| 0 <= m < |tail| && tail[m] == r[j];
          assert s[m + 1] == r[j];
        }
      }
    }
  }

  lemma {:induction false} SortByTimeSorted(rows: seq<Row>)
    ensures Sorted(SortByTime(rows))
    decreases |rows|
  {
    if |rows| > 0 {
      SortByTimeSorted(rows[..|rows| - 1]);
      InsertSorted(rows[|rows| - 1], SortByTime(rows[..|rows| - 1]));
    }
  }

  /** In a sorted list, fewer rows are faster than the one at position `i`
      than there are rows before it: ties share the better rank. */
  lemma SortedRankBound(s: seq<Row>, i: nat)
    requires Sorted(s) && i < |s|
    ensures CountFaster(s, s[i].clearTime) <= i
  {
    var t := s[i].clearTime;
    assert s == s[..i] + s[i..];
    CountFasterAppend(s[..i], s[i..], t);
    CountFasterIndices(s[i..], t);
    var late := set k | 0 <= k < |s[i..]| && s[i..][k].clearTime < t;
    assert late == {} by {
      forall k | 0 <= k < |s[i..]| ensures s[i..][k].clearTime >= t {
        assert s[i..][k] == s[i + k];
      }
    }
  }

  // ---------------------------------------------------------------------
  // POST

  /** The handler's response and the table after it, with `id` the id the
      database gives a new row. */
  function PostOutcome(rows: seq<Row>, configured: bool, id: string, req: ScoreRequest): (PostResponse, seq<Row>)
  {
    if !configured then (Saved(1, None), rows)
    else if !Truthy(req.nickname) || req.clearTime.None? then (MissingFields, rows)
    else
      var row := Row(id, Truncate(req.nickname.value), req.clearTime.value, req.maxHeight);
      var table := rows + [row];
      (Saved(RankOf(table, row.clearTime), Some(row)), table)
  }

  /** The `POST` rules: no backend answers rank 1 and stores nothing; a
      falsy nickname or a missing time is refused and stores nothing; else
      exactly the truncated row is appended, and its rank is one more than
      the number of strictly faster rows already stored. */
  lemma PostRules(rows: seq<Row>, configured: bool, id: string, req: ScoreRequest)
    ensures var (r, table) := PostOutcome(rows, configured, id, req);
      (!configured ==> r == Saved(1, None) && table == rows) &&
      (configured && (!Truthy(req.nickname) || req.clearTime.None?) ==>
        r == MissingFields && Status(r) == 400 && table == rows) &&
      (configured && Truthy(req.nickname) && req.clearTime.Some? ==>
        |table| == |rows| + 1 && table[..|rows|] == rows &&
        table[|rows|] == Row(id, Truncate(req.nickname.value), req.clearTime.value, req.maxHeight) &&
        table[|rows|].nickname <= req.nickname.value && |table[|rows|].nickname| <= NICKNAME_MAX &&
        r == Saved(1 + CountFaster(rows, req.clearTime.value), Some(table[|rows|])) && Status(r) == 200)
  {
    if configured && Truthy(req.nickname) && req.clearTime.Some? {
      var row := Row(id, Truncate(req.nickname.value), req.clearTime.value, req.maxHeight);
      NewRowNotCounted(rows, row);
      assert (rows + [row])[..|rows|] == rows;
    }
  }

  /** A clear time of 0 is a valid submission (only an absent time is refused). */
  lemma ZeroTimeAccepted(rows: seq<Row>, id: string, nickname: string)
    requires nickname != ""
    ensures PostOutcome(rows, true, id, ScoreRequest(Some(nickname), Some(0), None)).0.Saved?
  {
  }

  /** Two clears with the same time get the same rank, and a slower time
      never gets a better rank. */
  lemma PostRankOrder(rows: seq<Row>, t1: int, t2: int)
    requires t1 <= t2
    ensures RankOf(rows, t1) <= RankOf(rows, t2)
  {
    CountFasterMonotone(rows, t1, t2);
  }

  /** The table a `POST` writes to. */
  class ScoreTable {
    /** `isSupabaseConfigured() && supabase`. */
    const configured: bool
    var rows: seq<Row>

    constructor (configured: bool, rows: seq<Row>)
      ensures this.configured == configured && this.rows == rows
    {
      this.configured := configured;
      this.rows := rows;
    }

    /** `POST`: validate, insert, then count the strictly faster rows. */
    method Post(id: string, req: ScoreRequest) returns (r: PostResponse)
      modifies this
      ensures (r, rows) == PostOutcome(old(rows), configured, id, req)
    {
      if !configured {
        return Saved(1, None);
      }
      if req.nickname.None? || req.nickname.value == "" || req.clearTime.None? {
        return MissingFields;
      }
      var row := Row(id, Truncate(req.nickname.value), req.clearTime.value, req.maxHeight);
      rows := rows + [row];
      var count := CountFaster(rows, row.clearTime);
      r := Saved(count + 1, Some(row));
    }
  }

  // ---------------------------------------------------------------------
  // GET

  datatype LeaderboardQuery = LeaderboardQuery(limit: Option<string>, nickname: Option<string>)
  datatype UserRank = UserRank(rank: nat, score: Row)
  datatype LeaderboardResponse = LeaderboardResponse(scores: seq<Row>, total: nat, userRank: Option<UserRank>)

  /** The longest prefix of decimal digits. */
  function DigitPrefix(s: string): (d: string)
    ensures d <= s && TimeFormat.IsDigits(d)
    ensures |d| < |s| ==> !('0' <= s[|d|] <= '9')
  {
    if |s| > 0 && '0' <= s[0] <= '9' then [s[0]] + DigitPrefix(s[1..]) else []
  }

  /** A hexadecimal digit, in either case. */
  predicate IsHexDigit(c: char)
  {
    '0' <= c <= '9' || 'a' <= c <= 'f' || 'A' <= c <= 'F'
  }

  predicate IsHexDigits(s: string)
  {
    forall i :: 0 <= i < |s| ==> IsHexDigit(s[i])
  }

  function HexValue(c: char): (v: nat)
    requires IsHexDigit(c)
    ensures v < 16
    ensures '0' <= c <= '9' ==> v == TimeFormat.DigitValue(c)
  {
    if '0' <= c <= '9' then c as int - 48
    else if 'a' <= c <= 'f' then c as int - 87
    else c as int - 55
  }

  /** The longest prefix of hexadecimal digits. */
  function HexPrefix(s: string): (h: string)
    ensures h <= s && IsHexDigits(h)
    ensures |h| < |s| ==> !IsHexDigit(s[|h|])
  {
    if |s| > 0 && IsHexDigit(s[0]) then [s[0]] + HexPrefix(s[1..]) else []
  }

  /** The value of a string of hexadecimal digits. */
  function ParseHex(h: string): nat
    requires IsHexDigits(h)
  {
    if h == [] then 0 else 16 * ParseHex(h[..|h| - 1]) + HexValue(h[|h| - 1])
  }

  /** `parseInt` without a radix reads a `0x` or `0X` prefix as base 16. */
  predicate HasHexPrefix(s: string)
  {
    |s| >= 2 && s[0] == '0' && (s[1] == 'x' || s[1] == 'X')
  }

  /** `parseInt(limit || '100')` for a parameter that starts with a digit:
      base 16 after a `0x` prefix, base 10 otherwise.  `None` stands for
      what `parseInt` reads as NaN or as a signed value. */
  function LimitOf(param: Option<string>): Option<nat>
  {
    var s := if Truthy(param) then param.value else DEFAULT_LIMIT;
    if HasHexPrefix(s) then
      var h := HexPrefix(s[2..]);
      if h == [] then None else Some(ParseHex(h))
    else
      var d := DigitPrefix(s);
      if d == [] then None else Some(TimeFormat.ParseDecimal(d))
  }

  /** A limit with a `0x` or `0X` prefix followed by hexadecimal digits and
      then anything that is not one is the value of those digits; the
      prefix with no digit after it is NaN. */
  lemma HexLimit(s: string, h: string, rest: string)
    requires HasHexPrefix(s) && s[2..] == h + rest
    requires IsHexDigits(h) && (rest == [] || !IsHexDigit(rest[0]))
    ensures LimitOf(Some(s)) == if h == [] then None else Some(ParseHex(h))
  {
    HexPrefixAppend(h, rest);
  }

  lemma {:induction false} HexPrefixAppend(h: string, rest: string)
    requires IsHexDigits(h)
    requires rest == [] || !IsHexDigit(rest[0])
    ensures HexPrefix(h + rest) == h
    decreases |h|
  {
    if |h| > 0 {
      assert (h + rest)[1..] == h[1..] + rest;
      HexPrefixAppend(h[1..], rest);
      assert h == [h[0]] + h[1..];
    } else {
      assert h + rest == rest;
    }
  }

  lemma {:induction false} DigitPrefixAppend(d: string, rest: string)
    requires TimeFormat.IsDigits(d)
    requires rest == [] || !('0' <= rest[0] <= '9')
    ensures DigitPrefix(d + rest) == d
    decreases |d|
  {
    if |d| > 0 {
      assert (d + rest)[1..] == d[1..] + rest;
      DigitPrefixAppend(d[1..], rest);
      assert d == [d[0]] + d[1..];
    } else {
      assert d + rest == rest;
    }
  }

  /** A limit without a `0x` prefix is the value of its leading decimal
      digits, and NaN when it does not start with one. */
  lemma DecimalLimit(d: string, rest: string)
    requires TimeFormat.IsDigits(d) && (rest == [] || !('0' <= rest[0] <= '9'))
    requires d + rest != [] && !HasHexPrefix(d + rest)
    ensures LimitOf(Some(d + rest)) == if d == [] then None else Some(TimeFormat.ParseDecimal(d))
  {
    DigitPrefixAppend(d, rest);
  }

  /** `parseInt("0x10")` is 16, not 0. */
  lemma HexLimitExample()
    ensures LimitOf(Some("0x10")) == Some(16)
    ensures LimitOf(Some("0X")) == None
  {
    assert "0x10"[2..] == "10" + "";
    HexLimit("0x10", "10", "");
    assert "10"[..1] == "1" && "1"[..0] == "";
    assert "0X"[2..] == "" + "";
    HexLimit("0X", "", "");
  }

  /** An absent or empty limit reads as 100. */
  lemma DefaultLimit()
    ensures LimitOf(None) == Some(100) && LimitOf(Some("")) == Some(100)
  {
    assert DigitPrefix("100") == "100" by {
      assert DigitPrefix("0") == "0";
      assert DigitPrefix("00") == "00";
    }
    assert "100"[..2] == "10" && "10"[..1] == "1" && "1"[..0] == "";
    assert TimeFormat.ParseDecimal("10") == 10;
  }

  /** `parseInt` stops at the first non-digit. */
  lemma LimitStopsAtNonDigit()
    ensures LimitOf(Some("25rows")) == Some(25)
  {
    assert DigitPrefix("25rows") == "25" by {
      assert "25rows"[1..] == "5rows" && "5rows"[1..] == "rows";
      assert DigitPrefix("rows") == "";
      assert DigitPrefix("5rows") == "5";
    }
    assert TimeFormat.ParseDecimal("25") == 25 by {
      assert "25"[..1] == "2" && "2"[..0] == "";
      assert TimeFormat.ParseDecimal("2") == 2;
    }
  }

  /** The rows of one nickname (`.eq('nickname', nickname)`). */
  function RowsOf(rows: seq<Row>, nickname: string): (r: seq<Row>)
    ensures forall x :: x in r <==> x in rows && x.nickname == nickname
    decreases |rows|
  {
    if |rows| == 0 then []
    else
      var last := rows[|rows| - 1];
      assert rows == rows[..|rows| - 1] + [last];
      RowsOf(rows[..|rows| - 1], nickname) + (if last.nickname == nickname then [last] else [])
  }

  /** The first row of that nickname in time order (`.limit(1).single()`). */
  function BestOf(rows: seq<Row>, nickname: string): Option<Row>
  {
    var mine := SortByTime(RowsOf(rows, nickname));
    if |mine| == 0 then None else Some(mine[0])
  }

  /** The best row is a row of that nickname with the lowest time among its
      rows, and there is none exactly when the nickname has no rows. */
  lemma BestOfRule(rows: seq<Row>, nickname: string)
    ensures BestOf(rows, nickname).None? <==> forall x :: x in rows ==> x.nickname != nickname
    ensures BestOf(rows, nickname).Some? ==>
      var b := BestOf(rows, nickname).value;
      b in rows && b.nickname == nickname &&
      forall x :: x in rows && x.nickname == nickname ==> b.clearTime <= x.clearTime
  {
    var own := RowsOf(rows, nickname);
    var mine := SortByTime(own);
    SortByTimeSorted(own);
    if |mine| == 0 {
      assert |own| == 0;
    } else {
      assert mine[0] in multiset(own);
      forall x | x in rows && x.nickname == nickname
        ensures mine[0].clearTime <= x.clearTime
      {
        assert x in multiset(mine);
        var j :| 0 <= j < |mine| && mine[j] == x;
        if j > 0 {
          assert mine[0].clearTime <= mine[j].clearTime;
        }
      }
      var some := mine[0];
      assert some in rows;
    }
  }

  /** The three rows answered without a backend. */
  function MockScores(): seq<Row>
  {
    [Row("1", "TestPlayer1", 300, Some(5000)),
     Row("2", "TestPlayer2", 450, Some(5000)),
     Row("3", "TestPlayer3", 600, Some(5000))]
  }

  /** `GET`; with a backend, for a limit `parseInt` reads as a non-negative
      number (the mock answer comes before the limit is read). */
  function Leaderboard(rows: seq<Row>, configured: bool, q: LeaderboardQuery): LeaderboardResponse
    requires configured ==> LimitOf(q.limit).Some?
  {
    if !configured then LeaderboardResponse(MockScores(), 3, None)
    else
      var scores := Top(rows, LimitOf(q.limit).value);
      var userRank :=
        if !Truthy(q.nickname) then None
        else match BestOf(rows, q.nickname.value)
          case None => None
          case Some(best) => Some(UserRank(RankOf(rows, best.clearTime), best));
      LeaderboardResponse(scores, |scores|, userRank)
  }

  /** The leaderboard's rows: the first `min(limit, rows)` of the sorted table. */
  function Top(rows: seq<Row>, limit: nat): (r: seq<Row>)
    ensures |r| == if limit < |rows| then limit else |rows|
  {
    var sorted := SortByTime(rows);
    if limit < |sorted| then sorted[..limit] else sorted
  }

  /** The top rows are ascending, come from the table, and are at least as
      fast as every row left off. */
  lemma TopRules(rows: seq<Row>, limit: nat)
    ensures Sorted(Top(rows, limit))
    ensures multiset(Top(rows, limit)) <= multiset(rows)
    ensures forall i, x :: 0 <= i < |Top(rows, limit)| && x in rows && x !in Top(rows, limit) ==>
      Top(rows, limit)[i].clearTime <= x.clearTime
  {
    var sorted := SortByTime(rows);
    SortByTimeSorted(rows);
    var top := Top(rows, limit);
    assert sorted == top + sorted[|top|..];
    assert multiset(sorted) == multiset(top) + multiset(sorted[|top|..]);
    forall i, x | 0 <= i < |top| && x in rows && x !in top
      ensures top[i].clearTime <= x.clearTime
    {
      assert x in multiset(sorted);
      var j :| 0 <= j < |sorted| && sorted[j] == x;
      if j < |top| {
        assert false;
      }
      assert top[i] == sorted[i];
    }
  }

  /** No row on the leaderboard is ranked below its position. */
  lemma TopRankBound(rows: seq<Row>, limit: nat, i: nat)
    requires i < |Top(rows, limit)|
    ensures RankOf(rows, Top(rows, limit)[i].clearTime) <= i + 1
  {
    var sorted := SortByTime(rows);
    SortByTimeSorted(rows);
    assert Top(rows, limit)[i] == sorted[i];
    SortedRankBound(sorted, i);
    CountFasterPermutation(sorted, rows, sorted[i].clearTime);
  }

  /** The leaderboard is the top rows, and it reports its own length. */
  lemma LeaderboardRules(rows: seq<Row>, q: LeaderboardQuery)
    requires LimitOf(q.limit).Some?
    ensures var r := Leaderboard(rows, true, q);
      r.scores == Top(rows, LimitOf(q.limit).value) && r.total == |r.scores|
  {
  }

  /** `userRank` is null without a nickname or when it has no rows; else it
      is the rank of that nickname's best time. */
  lemma UserRankRules(rows: seq<Row>, q: LeaderboardQuery)
    requires LimitOf(q.limit).Some?
    ensures var u := Leaderboard(rows, true, q).userRank;
      (!Truthy(q.nickname) ==> u.None?) &&
      (Truthy(q.nickname) ==>
        (u.None? <==> forall x :: x in rows ==> x.nickname != q.nickname.value)) &&
      (u.Some? ==> (u.value.score in rows && u.value.score.nickname == q.nickname.value &&
        u.value.rank == 1 + CountFaster(rows, u.value.score.clearTime) &&
        forall x :: x in rows && x.nickname == q.nickname.value ==> u.value.score.clearTime <= x.clearTime))
  {
    if Truthy(q.nickname) {
      BestOfRule(rows, q.nickname.value);
    }
  }

  /** Without a backend: three rows, ascending, total 3, no user rank. */
  lemma MockLeaderboard(rows: seq<Row>, q: LeaderboardQuery)
    ensures var r := Leaderboard(rows, false, q);
      r.scores == MockScores() && Sorted(r.scores) && r.total == |r.scores| == 3 && r.userRank.None?
  {
    assert Leaderboard(rows, false, q) == LeaderboardResponse(MockScores(), 3, None);
    assert Sorted(MockScores());
  }
}
