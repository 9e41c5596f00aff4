// Achievements: what looking at them records, and what is announced.
module Achieving {
  import opened Content
  import opened Farms
  import opened Advancing

  /** One of the first `n` achievements goes by `id` and its condition is met. */
  ghost predicate MetBy(c: Config, f: Farm, n: nat, id: string)
    requires n <= |c.achievements|
  {
    exists k | 0 <= k < n :: c.achievements[k].id == id && Met(f, c.achievements[k].condition)
  }

  /** `g` has the records of `f` with their dates, and the ids met among the first `n`, dated `now` if they are new. */
  ghost predicate Recorded(c: Config, f: Farm, g: Farm, now: int, n: nat)
    requires n <= |c.achievements|
  {
    && (forall id :: id in g.achievements <==> id in f.achievements || MetBy(c, f, n, id))
    && (forall id <- g.achievements :: g.achievements[id] == if id in f.achievements then f.achievements[id] else now)
  }

  /** `news` is exactly what `g` has and `f` has not, each once. */
  ghost predicate Announces(f: Farm, g: Farm, news: seq<string>) {
    && (forall id :: id in news <==> id in g.achievements && id !in f.achievements)
    && (forall i, j | 0 <= i < j < |news| :: news[i] != news[j])
  }

  lemma MetByNext(c: Config, f: Farm, n: nat, id: string)
    requires 0 < n <= |c.achievements|
    ensures MetBy(c, f, n, id)
            <==> MetBy(c, f, n - 1, id) || (c.achievements[n - 1].id == id && Met(f, c.achievements[n - 1].condition))
  {
    hide Valid, Met;
  }

  lemma RecordStep(c: Config, f: Farm, g: Farm, now: int, n: nat)
    requires 0 < n <= |c.achievements| && Recorded(c, f, g, now, n - 1) && g == f.(achievements := g.achievements)
    ensures var a := c.achievements[n - 1];
            Recorded(c, f, if Earns(g, a) then g.(achievements := g.achievements[a.id := now]) else g, now, n)
  {
    hide Valid, MetBy;
    assert Met(g, c.achievements[n - 1].condition) == Met(f, c.achievements[n - 1].condition);
    hide Met;
    forall id { MetByNext(c, f, n, id); }
  }

  lemma AnnounceStep(f: Farm, g: Farm, news: seq<string>, id: string, now: int)
    requires Announces(f, g, news) && id !in g.achievements && forall k :: k in f.achievements ==> k in g.achievements
    ensures Announces(f, g.(achievements := g.achievements[id := now]), news + [id])
  {
    assert id !in news;
  }

  lemma {:induction false} AwardRecords(c: Config, f: Farm, now: int, n: nat)
    requires n <= |c.achievements|
    ensures Recorded(c, f, Award(c, f, now, n), now, n)
    ensures Announces(f, Award(c, f, now, n), Awarded(c, f, now, n))
  {
    hide Valid, MetBy, Met;
    if n > 0 {
      AwardRecords(c, f, now, n - 1);
      var g, a := Award(c, f, now, n - 1), c.achievements[n - 1];
      RecordStep(c, f, g, now, n);
      if Earns(g, a) { AnnounceStep(f, g, Awarded(c, f, now, n - 1), a.id, now); }
      hide Recorded, Announces;
    } else {
      NoneMet(c, f);
    }
  }

  lemma NoneMet(c: Config, f: Farm)
    ensures forall id :: !MetBy(c, f, 0, id)
  {
  }

  /** After a look at the achievements every one that is met is on record, whatever was on record keeps its date,
      nothing else was added, and exactly the new ones are announced, each once. */
  lemma CheckRecordsAll(c: Config, f: Farm, now: int)
    ensures var g := CheckAchievements(c, f, now); var all := |c.achievements|;
            Recorded(c, f, g, now, all) && Announces(f, g, Awarded(c, f, now, all))
    ensures var g := CheckAchievements(c, f, now);
            CheckAchievements(c, g, now) == g && Awarded(c, g, now, |c.achievements|) == []
  {
    hide Valid, Award, Awarded, Met;
    var all := |c.achievements|;
    AwardRecords(c, f, now, all);
    var g := CheckAchievements(c, f, now);
    AwardRecords(c, g, now, all);
    var h := CheckAchievements(c, g, now);
    assert g == f.(achievements := g.achievements) && h == g.(achievements := h.achievements);
    forall id ensures MetBy(c, g, all, id) <==> MetBy(c, f, all, id) { SameMet(c, f, g, all, id); }
    assert h.achievements.Keys == g.achievements.Keys;
    assert h.achievements == g.achievements;
    var news := Awarded(c, g, now, all);
    FirstIsMember(news);
  }

  lemma FirstIsMember(s: seq<string>)
    ensures s == [] || exists x :: x in s
  {
    if s != [] { assert s[0] in s; }
  }

  lemma SameMet(c: Config, f: Farm, g: Farm, n: nat, id: string)
    requires n <= |c.achievements| && g == f.(achievements := g.achievements)
    ensures MetBy(c, g, n, id) <==> MetBy(c, f, n, id)
  {
    hide Valid;
  }
}
