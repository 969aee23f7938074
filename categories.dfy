/**
 * The category registry: lookup by exact name (`CategoriaService.get_by_nome`)
 * and the resolution step shared by expense creation and update, which
 * prefers an existing category id, then an existing name, and otherwise
 * creates the category.
 */
module Categories {
  import opened Common
  import opened Entities
  import opened Store

  /** Ids of the categories named exactly `nome`. */
  function NamedIds(cats: map<string, Categoria>, nome: string): (ids: set<string>)
    ensures forall id :: id in ids <==> id in cats && cats[id].nome == nome
  {
    set id | id in cats && cats[id].nome == nome
  }

  /**
   * `get_by_nome`: the first category of the query on `nome`, in the
   * store's document-id order; None when no category has that name.
   */
  method GetByNome(db: Db, nome: string) returns (r: Option<string>)
    ensures r.None? <==> forall id :: id in db.categorias ==> db.categorias[id].nome != nome
    ensures r.Some? ==> r.value in db.categorias && db.categorias[r.value].nome == nome
    ensures r.Some? ==> IsLeast(r.value, NamedIds(db.categorias, nome))
  {
    r := LeastOf(NamedIds(db.categorias, nome));
  }

  /** The category an expense ends up pointing at, and the category record when there is one. */
  datatype Resolution = Resolution(categoriaId: string, categoriaNome: string, categoria: Option<Categoria>)

  /**
   * Category resolution of `create_with_categoria` and `update_with_categoria`,
   * from registry `cats` to registry `cats'`: an id naming an existing
   * category wins and that category's current name is copied; otherwise a
   * non-empty name is looked up (first match), and a new category is created
   * under `freshId` when none has it; with neither, nothing changes.
   */
  predicate Resolved(cats: map<string, Categoria>, cats': map<string, Categoria>,
                     categoriaId: string, categoriaNome: string, freshId: string, res: Resolution)
  {
    if categoriaId != "" && categoriaId in cats then
      res == Resolution(categoriaId, cats[categoriaId].nome, Some(cats[categoriaId])) && cats' == cats
    else if categoriaNome == "" then
      res == Resolution(categoriaId, categoriaNome, None) && cats' == cats
    else if NamedIds(cats, categoriaNome) != {} then
      IsLeast(res.categoriaId, NamedIds(cats, categoriaNome)) &&
      res == Resolution(res.categoriaId, categoriaNome, Some(cats[res.categoriaId])) && cats' == cats
    else
      res == Resolution(freshId, categoriaNome, Some(NewCategoria(categoriaNome))) &&
      cats' == cats[freshId := NewCategoria(categoriaNome)]
  }

  /** The resolution step, run against the store. */
  method ResolveCategoria(db: Db, categoriaId: string, categoriaNome: string, freshId: string)
    returns (res: Resolution)
    requires freshId !in db.categorias && freshId != ""
    modifies db`categorias
    ensures Resolved(old(db.categorias), db.categorias, categoriaId, categoriaNome, freshId, res)
    // Whatever the branch, the registry only grows, and an expense given an
    // existing id or a name points at a stored category carrying that name.
    ensures forall id :: id in old(db.categorias) ==> id in db.categorias && db.categorias[id] == old(db.categorias)[id]
    ensures (categoriaId != "" && categoriaId in old(db.categorias)) || categoriaNome != "" ==>
      res.categoriaId in db.categorias && db.categorias[res.categoriaId].nome == res.categoriaNome &&
      res.categoria == Some(db.categorias[res.categoriaId])
  {
    if categoriaId != "" && categoriaId in db.categorias {
      var c := db.categorias[categoriaId];
      return Resolution(categoriaId, c.nome, Some(c));
    }
    if categoriaNome == "" {
      return Resolution(categoriaId, categoriaNome, None);
    }
    var found := GetByNome(db, categoriaNome);
    if found.Some? {
      res := Resolution(found.value, categoriaNome, Some(db.categorias[found.value]));
    } else {
      var nova := NewCategoria(categoriaNome);
      db.categorias := db.categorias[freshId := nova];
      res := Resolution(freshId, categoriaNome, Some(nova));
    }
  }

  /** The resolution has exactly one outcome: the first match is unique. */
  lemma ResolvedDeterministic(cats: map<string, Categoria>, c1: map<string, Categoria>, c2: map<string, Categoria>,
                              categoriaId: string, categoriaNome: string, freshId: string,
                              r1: Resolution, r2: Resolution)
    requires Resolved(cats, c1, categoriaId, categoriaNome, freshId, r1)
    requires Resolved(cats, c2, categoriaId, categoriaNome, freshId, r2)
    ensures r1 == r2 && c1 == c2
  {
    if !(categoriaId != "" && categoriaId in cats) && categoriaNome != "" && NamedIds(cats, categoriaNome) != {} {
      LeastUnique(r1.categoriaId, r2.categoriaId, NamedIds(cats, categoriaNome));
    }
  }
}
