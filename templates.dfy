/** The `templates` table: six named shapes, each with a base colour (a
    24-bit RGB hex value) and a particle count, and the cyclic order in
    which a peace sign walks through them. */
module Templates {
  import opened Wrappers

  datatype TemplateName = Spiral | Heart | Flower | Saturn | Fireworks | Galaxy

  /** The table's keys in declaration order, which is the order
      `Object.keys(templates)` yields. */
  const Order: seq<TemplateName> := [Spiral, Heart, Flower, Saturn, Fireworks, Galaxy]

  /** The string key under which a template is stored. */
  function Key(t: TemplateName): string {
    match t
    case Spiral => "spiral"
    case Heart => "heart"
    case Flower => "flower"
    case Saturn => "saturn"
    case Fireworks => "fireworks"
    case Galaxy => "galaxy"
  }

  /** `templates[name]`: finds the template stored under a string key. */
  function Lookup(name: string): (r: Option<TemplateName>)
    ensures r.Some? ==> Key(r.value) == name
    ensures r.None? ==> forall t: TemplateName :: Key(t) != name
  {
    if name == "spiral" then Some(Spiral)
    else if name == "heart" then Some(Heart)
    else if name == "flower" then Some(Flower)
    else if name == "saturn" then Some(Saturn)
    else if name == "fireworks" then Some(Fireworks)
    else if name == "galaxy" then Some(Galaxy)
    else None
  }

  /** Base colour of a template as a hex RGB value. */
  function Color(t: TemplateName): (hex: int)
    ensures 0 <= hex < 0x100_0000
  {
    match t
    case Spiral => 0x00ffff
    case Heart => 0xff1493
    case Flower => 0xff69b4
    case Saturn => 0xffd700
    case Fireworks => 0xff4500
    case Galaxy => 0x9370db
  }

  /** Number of particles a template is built with. */
  function Count(t: TemplateName): (n: nat)
    ensures 1500 <= n <= 3000
  {
    match t
    case Spiral => 2000
    case Heart => 1500
    case Flower => 2000
    case Saturn => 2500
    case Fireworks => 3000
    case Galaxy => 2500
  }

  /** `templateNames.indexOf(t)`: every template occurs in the key order. */
  function IndexOf(t: TemplateName): (i: nat)
    ensures i < |Order| && Order[i] == t
  {
    match t
    case Spiral => 0
    case Heart => 1
    case Flower => 2
    case Saturn => 3
    case Fireworks => 4
    case Galaxy => 5
  }

  /** The template a peace sign switches to: the next key, wrapping around. */
  function Next(t: TemplateName): (r: TemplateName)
    ensures IndexOf(r) == (IndexOf(t) + 1) % |Order|
  {
    Order[(IndexOf(t) + 1) % |Order|]
  }

  /** `k` peace-sign switches in a row. */
  function NextN(t: TemplateName, k: nat): TemplateName {
    if k == 0 then t else Next(NextN(t, k - 1))
  }

  /** After `k` switches the template sits `k` places further in the key order. */
  lemma {:induction false} NextNIndex(t: TemplateName, k: nat)
    ensures IndexOf(NextN(t, k)) == (IndexOf(t) + k) % |Order|
  {
    if k > 0 {
      NextNIndex(t, k - 1);
      SuccMod(IndexOf(t) + k - 1);
    }
  }

  lemma SuccMod(n: nat)
    ensures (n % 6 + 1) % 6 == (n + 1) % 6
  {
    var q, j := n / 6, n % 6;
    assert n == 6 * q + j;
    if j < 5 {
      assert n + 1 == 6 * q + (j + 1);
    } else {
      assert n + 1 == 6 * (q + 1) + 0;
    }
  }

  /** The switch order is one cycle through all six templates: it returns
      to the start after exactly six switches and not before. */
  lemma NextIsSixCycle(t: TemplateName, k: nat)
    ensures NextN(t, k) == t <==> k % 6 == 0
  {
    NextNIndex(t, k);
    IndexOfInjective(NextN(t, k), t);
    ShiftMod(IndexOf(t), k);
  }

  /** Different templates sit at different places in the order. */
  lemma IndexOfInjective(u: TemplateName, v: TemplateName)
    ensures IndexOf(u) == IndexOf(v) ==> u == v
  {
  }

  /** Adding `k` to a residue below 6 returns to it exactly when `k` is a
      multiple of 6. */
  lemma ShiftMod(i: nat, k: nat)
    requires i < 6
    ensures (i + k) % 6 == i <==> k % 6 == 0
  {
    var q, j := k / 6, k % 6;
    assert k == 6 * q + j;
    if i + j < 6 {
      assert i + k == 6 * q + (i + j);
    } else {
      assert i + k == 6 * (q + 1) + (i + j - 6);
    }
  }

  /** Distinct templates have distinct keys, so a key names one template. */
  lemma KeysDistinct(t: TemplateName, u: TemplateName)
    ensures Key(t) == Key(u) <==> t == u
    ensures Lookup(Key(t)) == Some(t)
  {
  }
}
