/**
 * The template catalog of the backend: `getTemplates`, `getTemplate` and
 * `seedTemplates`. Templates are never deleted, so a row's id is its
 * position in insertion order.
 */
module TemplateCatalog {
  import opened Wrappers
  import opened Schema

  type TemplateId = nat

  const ModernProfessional: Template := Template(
    "Modern Professional",
    "Clean and modern design perfect for tech professionals",
    "Professional",
    None,
    TemplateConfig(Colors("#2563eb", "#64748b", "#1e293b", "#ffffff"), Fonts("Inter", "Inter"), "modern"),
    false)

  const CreativeDesigner: Template := Template(
    "Creative Designer",
    "Bold and creative template for designers and artists",
    "Creative",
    None,
    TemplateConfig(Colors("#7c3aed", "#a855f7", "#1f2937", "#ffffff"), Fonts("Poppins", "Inter"), "creative"),
    false)

  const Executive: Template := Template(
    "Executive",
    "Sophisticated template for senior executives",
    "Executive",
    None,
    TemplateConfig(Colors("#1f2937", "#6b7280", "#111827", "#ffffff"), Fonts("Playfair Display", "Inter"), "executive"),
    true)

  const Minimalist: Template := Template(
    "Minimalist",
    "Simple and clean design focusing on content",
    "Minimalist",
    None,
    TemplateConfig(Colors("#059669", "#6b7280", "#374151", "#ffffff"), Fonts("Inter", "Inter"), "minimalist"),
    false)

  /** The four rows `seedTemplates` inserts, in insertion order. */
  const Catalog: seq<Template> := [ModernProfessional, CreativeDesigner, Executive, Minimalist]

  /** The table after `seedTemplates`: untouched when it already has a row,
      whatever that row holds; otherwise the catalog. */
  function Seeded(rows: seq<Template>): seq<Template> {
    if |rows| > 0 then rows else Catalog
  }

  /** Seeding twice leaves the same table as seeding once. */
  lemma SeedIdempotent(rows: seq<Template>)
    ensures Seeded(Seeded(rows)) == Seeded(rows)
  {
  }

  /** Number of premium templates in a list. */
  function PremiumCount(ts: seq<Template>): (n: nat)
    ensures n <= |ts|
  {
    if ts == [] then 0 else (if ts[0].isPremium then 1 else 0) + PremiumCount(ts[1..])
  }

  /** Counting a concatenation adds the counts of its parts. */
  lemma {:induction false} PremiumCountAppend(a: seq<Template>, b: seq<Template>)
    ensures PremiumCount(a + b) == PremiumCount(a) + PremiumCount(b)
  {
    if a != [] {
      assert (a + b)[0] == a[0] && (a + b)[1..] == a[1..] + b;
      PremiumCountAppend(a[1..], b);
    } else {
      assert a + b == b;
    }
  }

  /** One template counts one exactly when it is premium. */
  lemma PremiumCountOne(t: Template)
    ensures PremiumCount([t]) == if t.isPremium then 1 else 0
  {
    assert [t][1..] == [];
  }

  /** Exactly one seeded template is premium, and it is Executive. */
  lemma CatalogHasOnePremium()
    ensures PremiumCount(Catalog) == 1
    ensures forall i :: 0 <= i < |Catalog| ==> (Catalog[i].isPremium <==> Catalog[i].name == "Executive")
  {
    assert [Minimalist][1..] == [];
    assert PremiumCount([Minimalist]) == 0;
    assert [Executive, Minimalist][1..] == [Minimalist];
    assert PremiumCount([Executive, Minimalist]) == 1;
    assert [CreativeDesigner, Executive, Minimalist][1..] == [Executive, Minimalist];
    assert PremiumCount([CreativeDesigner, Executive, Minimalist]) == 1;
    assert Catalog[1..] == [CreativeDesigner, Executive, Minimalist];
  }

  class TemplateTable {
    var rows: seq<Template>

    constructor ()
      ensures rows == []
    {
      rows := [];
    }

    /** `getTemplates`: every row with its id, in insertion order; each one is
        what `getTemplate` returns for that id. */
    function GetTemplates(): (r: seq<(TemplateId, Template)>)
      reads this
      ensures |r| == |rows|
      ensures forall i :: 0 <= i < |r| ==> r[i].0 == i && r[i].1 == rows[i] && GetTemplate(r[i].0) == Some(r[i].1)
    {
      seq(|rows|, i requires 0 <= i < |rows| reads this => (i, rows[i]))
    }

    /** `getTemplate`: the row, or `null` for an id with no row; it never throws. */
    function GetTemplate(id: TemplateId): (r: Option<Template>)
      reads this
      ensures r.Some? <==> id < |rows|
      ensures r.Some? ==> r.value == rows[id]
    {
      if id < |rows| then Some(rows[id]) else None
    }

    /** `seedTemplates`: when the table is empty, inserts the catalog one row
        at a time, in order; otherwise does nothing. */
    method SeedTemplates()
      modifies this
      ensures rows == Seeded(old(rows))
    {
      if |rows| > 0 {
        return;
      }
      var templates := Catalog;
      for i := 0 to |templates|
        invariant rows == templates[..i]
      {
        rows := rows + [templates[i]];
      }
    }
  }
}
