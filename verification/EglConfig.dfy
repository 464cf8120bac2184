/** eglChooseConfig's workaround: an attribute list is scanned, and a copy of it edited in place
  * and passed on if the driver would otherwise find no configuration.
  */
module EglConfig {
  const EGL_NONE := 0x3038
  const EGL_SURFACE_TYPE := 0x3033
  const EGL_RENDERABLE_TYPE := 0x3040
  const EGL_RECORDABLE_ANDROID := 0x3142
  const EGL_FRAMEBUFFER_TARGET_ANDROID := 0x3147
  const EGL_LEVEL := 0x3029
  const EGL_MATCH_NATIVE_PIXMAP := 0x3041
  const EGL_DONT_CARE := -1
  const EGL_TRUE := 1
  const EGL_PBUFFER_BIT := 1
  const EGL_OPENGL_ES2_BIT := 4

  datatype Attr = Attr(key: int, value: int)

  /** Whether a bit is set in the two's complement form of a value. */
  predicate HasBit(value: int, bit: int)
    requires bit > 0
  {
    value / bit % 2 == 1
  }

  // -------- attribute lists

  /** Pairs of key and value up to the key EGL_NONE. */
  ghost predicate Terminated(s: seq<int>) {
    s != [] && (s[0] == EGL_NONE || (|s| >= 2 && Terminated(s[2..])))
  }

  ghost function Parse(s: seq<int>): seq<Attr>
    requires Terminated(s)
  {
    if s[0] == EGL_NONE then [] else [Attr(s[0], s[1])] + Parse(s[2..])
  }

  /** Where the pairs and the terminator are found in the list. */
  lemma {:induction false} Layout(s: seq<int>)
    requires Terminated(s)
    ensures 2 * |Parse(s)| < |s| && s[2 * |Parse(s)|] == EGL_NONE
    ensures forall k {:trigger Parse(s)[k]} :: 0 <= k < |Parse(s)| ==>
              s[2 * k] != EGL_NONE && Parse(s)[k] == Attr(s[2 * k], s[2 * k + 1])
  {
    if s[0] != EGL_NONE {
      Layout(s[2..]);
      var p, rest := Parse(s), Parse(s[2..]);
      forall k | 0 <= k < |p| ensures s[2 * k] != EGL_NONE && p[k] == Attr(s[2 * k], s[2 * k + 1]) {
        if k > 0 {
          assert p[k] == rest[k - 1];
          assert s[2..][2 * (k - 1)] == s[2 * k] && s[2..][2 * (k - 1) + 1] == s[2 * k + 1];
        }
      }
    }
  }

  lemma {:induction false} AtEnd(s: seq<int>, k: nat)
    requires Terminated(s) && k <= |Parse(s)| && 2 * k < |s| && s[2 * k] == EGL_NONE
    ensures k == |Parse(s)|
    decreases k
  {
    if s[0] != EGL_NONE {
      assert k != 0;
      assert s[2..][2 * (k - 1)] == s[2 * k];
      AtEnd(s[2..], k - 1);
    }
  }

  lemma PairAt(s: seq<int>, k: nat)
    requires Terminated(s) && k <= |Parse(s)|
    ensures 2 * k < |s|
    ensures k < |Parse(s)| ==> 2 * k + 2 < |s| && Parse(s)[k] == Attr(s[2 * k], s[2 * k + 1])
  {
    Layout(s);
  }

  /** A list laid out this way stands for these pairs. */
  lemma {:induction false} LaidOut(s: seq<int>, ps: seq<Attr>)
    requires 2 * |ps| < |s| && s[2 * |ps|] == EGL_NONE
    requires forall k {:trigger ps[k]} :: 0 <= k < |ps| ==>
              s[2 * k] != EGL_NONE && ps[k] == Attr(s[2 * k], s[2 * k + 1])
    ensures Terminated(s) && Parse(s) == ps
  {
    if ps != [] {
      var s', ps' := s[2..], ps[1..];
      assert ps[0] == Attr(s[0], s[1]);
      forall k | 0 <= k < |ps'| ensures s'[2 * k] != EGL_NONE && ps'[k] == Attr(s'[2 * k], s'[2 * k + 1]) {
        assert ps'[k] == ps[k + 1];
        assert s'[2 * k] == s[2 * (k + 1)] && s'[2 * k + 1] == s[2 * (k + 1) + 1];
      }
      LaidOut(s', ps');
    }
  }

  // -------- the rewriting

  predicate IsEs2(p: Attr) { p.key == EGL_RENDERABLE_TYPE && HasBit(p.value, EGL_OPENGL_ES2_BIT) }
  predicate IsPbuffer(p: Attr) { p.key == EGL_SURFACE_TYPE && HasBit(p.value, EGL_PBUFFER_BIT) }
  predicate IsRecordable(p: Attr) { p.key == EGL_RECORDABLE_ANDROID && p.value == EGL_TRUE }
  predicate IsTarget(p: Attr) { p.key == EGL_FRAMEBUFFER_TARGET_ANDROID }

  /** The position of the last pair that meets a test, -1 if none does. */
  function Last(ps: seq<Attr>, test: Attr -> bool): (k: int)
    ensures -1 <= k < |ps| && (k >= 0 ==> test(ps[k]))
    ensures forall j :: k < j < |ps| ==> !test(ps[j])
  {
    if ps == [] then -1
    else if test(ps[|ps| - 1]) then |ps| - 1
    else Last(ps[..|ps| - 1], test)
  }

  predicate Any(ps: seq<Attr>, test: Attr -> bool) { Last(ps, test) >= 0 }

  /** The two queries that the driver answers with no configuration. */
  predicate Blocked(ps: seq<Attr>) { Any(ps, IsRecordable) && Any(ps, IsEs2) && Any(ps, IsPbuffer) }
  predicate Unknown(ps: seq<Attr>) { Any(ps, IsTarget) && !Any(ps, IsEs2) }

  function Remove(ps: seq<Attr>, k: nat): seq<Attr>
    requires k < |ps|
  {
    ps[..k] + ps[k + 1..]
  }

  function Rewrite(ps: seq<Attr>): seq<Attr> {
    if Blocked(ps) then ps[Last(ps, IsRecordable) := Attr(EGL_RECORDABLE_ANDROID, EGL_DONT_CARE)]
    else if Unknown(ps) then Remove(ps, Last(ps, IsTarget))
    else ps
  }

  lemma RecordableEdited(s: seq<int>, r: nat, out: seq<int>)
    requires Terminated(s) && r < |Parse(s)| && Parse(s)[r].key == EGL_RECORDABLE_ANDROID
    requires var n := 2 * |Parse(s)| + 1; n <= |s| && out == s[..n][2 * r + 1 := EGL_DONT_CARE]
    ensures Terminated(out) && Parse(out) == Parse(s)[r := Attr(EGL_RECORDABLE_ANDROID, EGL_DONT_CARE)]
  {
    Layout(s);
    var ps := Parse(s);
    var qs := ps[r := Attr(EGL_RECORDABLE_ANDROID, EGL_DONT_CARE)];
    forall k | 0 <= k < |qs| ensures out[2 * k] != EGL_NONE && qs[k] == Attr(out[2 * k], out[2 * k + 1]) {
      assert ps[k] == Attr(s[2 * k], s[2 * k + 1]);
    }
    LaidOut(out, qs);
  }

  lemma TargetEdited(s: seq<int>, f: nat, out: seq<int>)
    requires Terminated(s) && f < |Parse(s)|
    requires |out| == 2 * |Parse(s)| + 1 <= |s|
    requires forall i :: 0 <= i < 2 * f ==> out[i] == s[i]
    requires forall i :: 2 * f <= i < |out| - 2 ==> out[i] == s[i + 2]
    ensures Terminated(out) && Parse(out) == Remove(Parse(s), f)
  {
    Layout(s);
    var ps := Parse(s);
    var qs := Remove(ps, f);
    forall k | 0 <= k < |qs| ensures out[2 * k] != EGL_NONE && qs[k] == Attr(out[2 * k], out[2 * k + 1]) {
      if k < f {
        assert qs[k] == ps[k] == Attr(s[2 * k], s[2 * k + 1]);
      } else {
        assert qs[k] == ps[k + 1] == Attr(s[2 * (k + 1)], s[2 * (k + 1) + 1]);
      }
    }
    LaidOut(out, qs);
  }

  lemma LastStep(ps: seq<Attr>, k: nat, test: Attr -> bool)
    requires k < |ps|
    ensures Last(ps[..k + 1], test) == if test(ps[k]) then k else Last(ps[..k], test)
  {
    assert ps[..k + 1][..k] == ps[..k];
  }

  /** eglChooseConfig up to the driver's call: `passed` is the list handed on. */
  method ChooseConfig(attribs: array<int>) returns (passed: array<int>)
    requires Terminated(attribs[..])
    ensures Terminated(passed[..]) && Parse(passed[..]) == Rewrite(Parse(attribs[..]))
    ensures if Rewrite(Parse(attribs[..])) == Parse(attribs[..]) then passed == attribs else fresh(passed)
  {
    var renderableEs2, surfacePbuffer, attribCount, recordableValPos, fbtargetPos := Scan(attribs);
    ghost var s := attribs[..];
    ghost var ps := Parse(s);
    Layout(s);
    hide Last, IsEs2, IsPbuffer, IsRecordable, IsTarget, HasBit, Terminated, Parse, Remove;
    if recordableValPos != -1 && (!surfacePbuffer || !renderableEs2) {
      recordableValPos := -1;
    }
    if fbtargetPos != -1 && renderableEs2 {
      fbtargetPos := -1;
    }
    if recordableValPos != -1 || fbtargetPos != -1 {
      passed := Copy(attribs, attribCount);
      if recordableValPos != -1 {
        passed[recordableValPos] := EGL_DONT_CARE;
      }
      if fbtargetPos != -1 {
        MoveDown(passed, fbtargetPos, attribCount);
      }
      if Blocked(ps) {
        RecordableEdited(s, Last(ps, IsRecordable), passed[..]);
      } else {
        ghost var f := Last(ps, IsTarget);
        assert Unknown(ps) && f >= 0 && fbtargetPos == 2 * f;
        TargetEdited(s, f, passed[..]);
      }
      assert attribs[..] == s;
      return passed;
    }
    return attribs;
  }

  /** The pairs behind a position are moved over it. */
  method MoveDown(a: array<int>, pos: nat, n: nat)
    requires pos + 2 <= n == a.Length
    modifies a
    ensures forall i :: 0 <= i < n ==> a[..][i] == old(a[..])[if pos <= i < n - 2 then i + 2 else i]
  {
    forall i | pos <= i < n - 2 {
      a[i] := a[i + 2];
    }
  }

  /** memcpy of the first n elements. */
  method Copy(source: array<int>, n: nat) returns (copy: array<int>)
    requires n <= source.Length
    ensures fresh(copy) && copy[..] == source[..n]
  {
    copy := new int[n](i requires 0 <= i < n <= source.Length reads source => source[i]);
  }

  /** What the scan has found in the pairs so far: flags, and positions in the list. */
  ghost predicate Seen(ps: seq<Attr>, es2: bool, pbuffer: bool, recordableVal: int, fbtarget: int) {
    && es2 == Any(ps, IsEs2) && pbuffer == Any(ps, IsPbuffer)
    && recordableVal == (if Any(ps, IsRecordable) then 2 * Last(ps, IsRecordable) + 1 else -1)
    && fbtarget == (if Any(ps, IsTarget) then 2 * Last(ps, IsTarget) else -1)
  }

  lemma SeenNext(ps: seq<Attr>, k: nat, es2: bool, pbuffer: bool, recordableVal: int, fbtarget: int)
    requires k < |ps| && Seen(ps[..k], es2, pbuffer, recordableVal, fbtarget)
    ensures Seen(ps[..k + 1], es2 || IsEs2(ps[k]), pbuffer || IsPbuffer(ps[k]),
                 if IsRecordable(ps[k]) then 2 * k + 1 else recordableVal, if IsTarget(ps[k]) then 2 * k else fbtarget)
  {
    LastStep(ps, k, IsEs2);
    LastStep(ps, k, IsPbuffer);
    LastStep(ps, k, IsRecordable);
    LastStep(ps, k, IsTarget);
    hide Last, IsEs2, IsPbuffer, IsRecordable, IsTarget;
  }

  /** The scan over the keys: flags, length with terminator, and positions of interest. */
  method Scan(attribs: array<int>)
    returns (es2: bool, pbuffer: bool, count: nat, recordableVal: int, fbtarget: int)
    requires Terminated(attribs[..])
    ensures count == 2 * |Parse(attribs[..])| + 1
    ensures Seen(Parse(attribs[..]), es2, pbuffer, recordableVal, fbtarget)
  {
    es2, pbuffer, count, recordableVal, fbtarget := false, false, 0, -1, -1;
    ghost var s, k := attribs[..], 0;
    ghost var ps := Parse(s);
    PairAt(s, 0);
    assert Seen(ps[..0], es2, pbuffer, recordableVal, fbtarget);
    hide Last, HasBit, Terminated, Parse, Seen;
    while attribs[count] != EGL_NONE
      invariant k <= |ps| && count == 2 * k < attribs.Length
      invariant Seen(ps[..k], es2, pbuffer, recordableVal, fbtarget)
      decreases |ps| - k
    {
      assert k < |ps| by { EndsThere(s, k); }
      PairAt(s, k);
      SeenNext(ps, k, es2, pbuffer, recordableVal, fbtarget);
      count := count + 1;
      if attribs[count - 1] == EGL_RENDERABLE_TYPE {
        if HasBit(attribs[count], EGL_OPENGL_ES2_BIT) { es2 := true; }
      } else if attribs[count - 1] == EGL_SURFACE_TYPE {
        if HasBit(attribs[count], EGL_PBUFFER_BIT) { pbuffer := true; }
      } else if attribs[count - 1] == EGL_RECORDABLE_ANDROID {
        if attribs[count] == EGL_TRUE { recordableVal := count; }
      } else if attribs[count - 1] == EGL_FRAMEBUFFER_TARGET_ANDROID {
        fbtarget := count - 1;
      }
      count := count + 1;
      k := k + 1;
    }
    AtEnd(s, k);
    assert ps[..k] == ps;
    count := count + 1;
  }

  lemma EndsThere(s: seq<int>, k: nat)
    requires Terminated(s) && k <= |Parse(s)| && 2 * k < |s| && s[2 * k] != EGL_NONE
    ensures k < |Parse(s)|
  {
    Layout(s);
  }

  // -------- what the rewriting means

  /** A configuration must meet every pair of the list, and keys that the list leaves out count with
    * their defaults. "Do not care" is met, but for the level, of which -1 is an ordinary value, and
    * the native pixmap (section 3.4.1 of the EGL 1.4 specification). */
  ghost predicate Accepts<Config(!new)>(ps: seq<Attr>, meets: (Attr, Config) -> bool, defaults: int -> int, c: Config) {
    && (forall p :: p in ps ==> Met(p, meets, c))
    && (forall key :: !Names(ps, key) ==> Met(Attr(key, defaults(key)), meets, c))
  }

  ghost predicate Met<Config>(p: Attr, meets: (Attr, Config) -> bool, c: Config) {
    (p.value == EGL_DONT_CARE && p.key != EGL_LEVEL && p.key != EGL_MATCH_NATIVE_PIXMAP) || meets(p, c)
  }

  ghost predicate Names(ps: seq<Attr>, key: int) { exists p :: p in ps && p.key == key }

  /** The rewriting weakens the query: whatever the original accepts, the rewritten list accepts,
    * however the driver compares attributes. */
  lemma OnlyWeakens<Config(!new)>(ps: seq<Attr>, meets: (Attr, Config) -> bool, defaults: int -> int, c: Config)
    requires defaults(EGL_FRAMEBUFFER_TARGET_ANDROID) == EGL_DONT_CARE
    requires Accepts(ps, meets, defaults, c)
    ensures Accepts(Rewrite(ps), meets, defaults, c)
  {
    var qs := Rewrite(ps);
    forall p | p in qs ensures Met(p, meets, c) {
      assert p in ps || p == Attr(EGL_RECORDABLE_ANDROID, EGL_DONT_CARE);
    }
    forall key | !Names(qs, key) ensures Met(Attr(key, defaults(key)), meets, c) {
      if Names(ps, key) { KeysKept(ps, key); }
    }
  }

  /** "Don't care" in place of the refused pair is the same query as one without the pair. */
  lemma SameAsLeftOut<Config(!new)>(ps: seq<Attr>, meets: (Attr, Config) -> bool, defaults: int -> int, c: Config)
    requires Blocked(ps) && defaults(EGL_RECORDABLE_ANDROID) == EGL_DONT_CARE
    ensures Accepts(Rewrite(ps), meets, defaults, c)
            <==> Accepts(Remove(ps, Last(ps, IsRecordable)), meets, defaults, c)
  {
    var r := Last(ps, IsRecordable);
    OnePairMore(ps, r);
    hide Rewrite, Remove, Blocked, Last;
    var put := Attr(EGL_RECORDABLE_ANDROID, EGL_DONT_CARE);
    assert forall key :: Names(Rewrite(ps), key) <==> key == EGL_RECORDABLE_ANDROID || Names(Remove(ps, r), key);
  }

  lemma OnePairMore(ps: seq<Attr>, r: nat)
    requires Blocked(ps) && r == Last(ps, IsRecordable)
    ensures var put := Attr(EGL_RECORDABLE_ANDROID, EGL_DONT_CARE);
            forall p :: p in Rewrite(ps) <==> p == put || p in Remove(ps, r)
  {
    var qs, rs, put := Rewrite(ps), Remove(ps, r), Attr(EGL_RECORDABLE_ANDROID, EGL_DONT_CARE);
    assert qs[r] == put;
    forall p ensures p in qs <==> p == put || p in rs {
      if p in qs && p != put {
        var i :| 0 <= i < |qs| && qs[i] == p;
        assert rs[if i < r then i else i - 1] == p;
      }
      if p in rs {
        var i :| 0 <= i < |rs| && rs[i] == p;
        assert qs[if i < r then i else i + 1] == p;
      }
    }
  }

  /** The only key that can be lost is the one whose default is "don't care". */
  lemma KeysKept(ps: seq<Attr>, key: int)
    requires Names(ps, key) && !Names(Rewrite(ps), key)
    ensures key == EGL_FRAMEBUFFER_TARGET_ANDROID
  {
    var i :| 0 <= i < |ps| && ps[i].key == key;
    if key != EGL_FRAMEBUFFER_TARGET_ANDROID { KeyStays(ps, i); }
  }

  lemma KeyStays(ps: seq<Attr>, i: nat)
    requires i < |ps| && ps[i].key != EGL_FRAMEBUFFER_TARGET_ANDROID
    ensures Names(Rewrite(ps), ps[i].key)
  {
    var qs := Rewrite(ps);
    var k := if !Blocked(ps) && Unknown(ps) && i > Last(ps, IsTarget) then i - 1 else i;
    assert qs[k] in qs && qs[k].key == ps[i].key;
  }

  /** The pairs of all other keys. */
  function Others(ps: seq<Attr>): seq<Attr> {
    if ps == [] then []
    else
      var rest, p := Others(ps[..|ps| - 1]), ps[|ps| - 1];
      if p.key == EGL_RECORDABLE_ANDROID || p.key == EGL_FRAMEBUFFER_TARGET_ANDROID then rest else rest + [p]
  }

  lemma {:induction false} OthersJoin(a: seq<Attr>, b: seq<Attr>)
    ensures Others(a + b) == Others(a) + Others(b)
  {
    if b == [] {
      assert a + b == a;
    } else {
      var n := |b| - 1;
      OthersJoin(a, b[..n]);
      assert (a + b)[..|a + b| - 1] == a + b[..n];
    }
  }

  /** Every other pair is passed on, in order. */
  lemma OthersKept(ps: seq<Attr>)
    ensures Others(Rewrite(ps)) == Others(ps)
  {
    if Blocked(ps) {
      var r := Last(ps, IsRecordable);
      var put := [Attr(EGL_RECORDABLE_ANDROID, EGL_DONT_CARE)];
      assert Rewrite(ps) == ps[..r] + put + ps[r + 1..];
      OneApart(ps, r, put);
    } else if Unknown(ps) {
      var f := Last(ps, IsTarget);
      assert Rewrite(ps) == ps[..f] + [] + ps[f + 1..];
      OneApart(ps, f, []);
    }
  }

  lemma OneApart(ps: seq<Attr>, k: nat, put: seq<Attr>)
    requires k < |ps| && Others([ps[k]]) == [] == Others(put)
    ensures Others(ps[..k] + put + ps[k + 1..]) == Others(ps)
  {
    assert ps == ps[..k] + [ps[k]] + ps[k + 1..];
    OthersJoin(ps[..k], [ps[k]]);
    OthersJoin(ps[..k] + [ps[k]], ps[k + 1..]);
    OthersJoin(ps[..k], put);
    OthersJoin(ps[..k] + put, ps[k + 1..]);
  }

  lemma AnyExists(ps: seq<Attr>, test: Attr -> bool)
    ensures Any(ps, test) <==> exists k :: 0 <= k < |ps| && test(ps[k])
  {}

  /** No two pairs meet the test. */
  predicate Once(ps: seq<Attr>, test: Attr -> bool) {
    forall i, j :: 0 <= i < j < |ps| ==> !(test(ps[i]) && test(ps[j]))
  }

  /** Some pair with this key has this bit set in its value. */
  ghost predicate Asks(ps: seq<Attr>, key: int, bit: int)
    requires bit > 0
  {
    exists k :: 0 <= k < |ps| && ps[k].key == key && ps[k].value / bit % 2 == 1
  }

  /** The query for recordable pbuffer configurations for OpenGL ES 2. */
  ghost predicate AsksRecordable(ps: seq<Attr>) {
    Attr(0x3142, 1) in ps && Asks(ps, 0x3040, 4) && Asks(ps, 0x3033, 1)
  }

  /** The query for framebuffer targets without OpenGL ES 2. */
  ghost predicate AsksTarget(ps: seq<Attr>) {
    Names(ps, 0x3147) && !Asks(ps, 0x3040, 4)
  }

  lemma BlockedMeans(ps: seq<Attr>)
    ensures Blocked(ps) <==> AsksRecordable(ps)
    ensures Unknown(ps) <==> AsksTarget(ps)
  {
    AnyExists(ps, IsEs2);
    AnyExists(ps, IsPbuffer);
    AnyExists(ps, IsRecordable);
    AnyExists(ps, IsTarget);
    assert Any(ps, IsEs2) <==> Asks(ps, 0x3040, 4);
    assert Any(ps, IsPbuffer) <==> Asks(ps, 0x3033, 1);
    if Attr(0x3142, 1) in ps {
      var k :| 0 <= k < |ps| && ps[k] == Attr(0x3142, 1);
      assert IsRecordable(ps[k]);
    }
  }

  /** The rewriting changes a list exactly if it is one of the two queries that the driver refuses. */
  lemma ChangesOnlyRefused(ps: seq<Attr>)
    ensures Rewrite(ps) == ps <==> !AsksRecordable(ps) && !AsksTarget(ps)
  {
    BlockedMeans(ps);
    if Blocked(ps) {
      assert ps[Last(ps, IsRecordable)].value == EGL_TRUE;
    }
  }

  /** And what it changes: in the first query the value of the last recordable pair, in the second
    * the last pair for a framebuffer target, which is dropped. */
  lemma ChangesOnePair(ps: seq<Attr>) returns (k: nat)
    requires AsksRecordable(ps) || AsksTarget(ps)
    ensures k < |ps|
    ensures AsksRecordable(ps) ==>
              && ps[k] == Attr(0x3142, 1) && Attr(0x3142, 1) !in ps[k + 1..]
              && Rewrite(ps) == ps[..k] + [Attr(0x3142, -1)] + ps[k + 1..]
    ensures AsksTarget(ps) ==>
              && ps[k].key == 0x3147 && !Names(ps[k + 1..], 0x3147)
              && Rewrite(ps) == ps[..k] + ps[k + 1..]
  {
    BlockedMeans(ps);
    if Blocked(ps) {
      k := Last(ps, IsRecordable);
      assert !IsRecordable(Attr(0x3142, 1)) || Attr(0x3142, 1) !in ps[k + 1..];
    } else {
      k := Last(ps, IsTarget);
      forall p | p in ps[k + 1..] ensures !IsTarget(p) {}
    }
  }

  /** Rewriting again changes nothing, exactly if the pair at fault is not repeated. */
  lemma SettlesIffOnce(ps: seq<Attr>)
    ensures Rewrite(Rewrite(ps)) == Rewrite(ps)
            <==> (Blocked(ps) ==> Once(ps, IsRecordable)) && (Unknown(ps) ==> Once(ps, IsTarget))
  {
    BlockedMeans(Rewrite(ps));
    ChangesOnlyRefused(Rewrite(ps));
    if Blocked(ps) {
      AfterUnblocking(ps);
    } else if Unknown(ps) {
      AfterRemoval(ps);
    }
  }

  lemma AfterUnblocking(ps: seq<Attr>)
    requires Blocked(ps)
    ensures !Unknown(Rewrite(ps)) && (Blocked(Rewrite(ps)) <==> !Once(ps, IsRecordable))
  {
    var qs, r := Rewrite(ps), Last(ps, IsRecordable);
    var e, p := Last(ps, IsEs2), Last(ps, IsPbuffer);
    assert qs[e] == ps[e] && qs[p] == ps[p];
    AnyExists(qs, IsEs2);
    AnyExists(qs, IsPbuffer);
    AnyExists(qs, IsRecordable);
    if k :| 0 <= k < |qs| && IsRecordable(qs[k]) {
      assert k != r && qs[k] == ps[k];
    }
    if i, j :| 0 <= i < j < |ps| && IsRecordable(ps[i]) && IsRecordable(ps[j]) {
      assert qs[i] == ps[i];
    }
  }

  lemma AfterRemoval(ps: seq<Attr>)
    requires Unknown(ps) && !Blocked(ps)
    ensures !Blocked(Rewrite(ps)) && (Unknown(Rewrite(ps)) <==> !Once(ps, IsTarget))
  {
    var qs, f := Rewrite(ps), Last(ps, IsTarget);
    forall k | 0 <= k < |qs| ensures qs[k] == ps[if k < f then k else k + 1] {}
    AnyExists(qs, IsEs2);
    AnyExists(qs, IsTarget);
    if i, j :| 0 <= i < j < |ps| && IsTarget(ps[i]) && IsTarget(ps[j]) {
      assert qs[i] == ps[i];
    }
  }
}
