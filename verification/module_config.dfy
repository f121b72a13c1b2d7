/** The sixteen analysis modules every session must deliver, in the declaration
    order of the generator's `modules_config` (which is also the compiler's
    `modules_order`). */
module ModuleConfig {
  import opened Wrappers

  datatype ModuleSpec = ModuleSpec(name: string, title: string, description: string, useActiveSearch: bool)

  const Modules: seq<ModuleSpec> := [
    ModuleSpec("anti_objecao", "Sistema Anti-Objeção",
      "Sistema completo para antecipar e neutralizar objeções", false),
    ModuleSpec("avatars", "Avatares do Público-Alvo",
      "Personas detalhadas do público-alvo", false),
    ModuleSpec("concorrencia", "Análise Competitiva",
      "Análise completa da concorrência", true),
    ModuleSpec("drivers_mentais", "Drivers Mentais",
      "Gatilhos psicológicos e drivers de compra", false),
    ModuleSpec("funil_vendas", "Funil de Vendas",
      "Estrutura completa do funil de vendas", false),
    ModuleSpec("insights_mercado", "Insights de Mercado",
      "Insights profundos sobre o mercado", true),
    ModuleSpec("palavras_chave", "Estratégia de Palavras-Chave",
      "Estratégia completa de SEO e palavras-chave", false),
    ModuleSpec("plano_acao", "Plano de Ação",
      "Plano de ação detalhado e executável", false),
    ModuleSpec("posicionamento", "Estratégia de Posicionamento",
      "Posicionamento estratégico no mercado", false),
    ModuleSpec("pre_pitch", "Estrutura de Pré-Pitch",
      "Estrutura de pré-venda e engajamento", false),
    ModuleSpec("predicoes_futuro", "Predições de Mercado",
      "Predições e tendências futuras", true),
    ModuleSpec("provas_visuais", "Sistema de Provas Visuais",
      "Provas visuais e sociais", false),
    ModuleSpec("metricas_conversao", "Métricas de Conversão",
      "KPIs e métricas de conversão", false),
    ModuleSpec("estrategia_preco", "Estratégia de Precificação",
      "Estratégia de preços e monetização", false),
    ModuleSpec("canais_aquisicao", "Canais de Aquisição",
      "Canais de aquisição de clientes", false),
    ModuleSpec("cronograma_lancamento", "Cronograma de Lançamento",
      "Cronograma detalhado de lançamento", false)
  ]

  /** `len(self.modules_config)`. */
  const TotalModules: nat := 16

  ghost predicate Distinct<T>(s: seq<T>) {
    forall i, j :: 0 <= i < j < |s| ==> s[i] != s[j]
  }

  /** The names of `ms`, in order (`modules_config.keys()`). */
  function NamesOf(ms: seq<ModuleSpec>): (r: seq<string>)
    ensures |r| == |ms|
    ensures forall i :: 0 <= i < |ms| ==> r[i] == ms[i].name
  {
    seq(|ms|, i requires 0 <= i < |ms| => ms[i].name)
  }

  /** The configured names are sixteen different names. */
  function ModuleNames(): (r: seq<string>)
    ensures |r| == TotalModules
    ensures forall i :: 0 <= i < |r| ==> r[i] == Modules[i].name
    ensures Distinct(r)
  {
    NamesOf(Modules)
  }

  /** `modules_config.get(name)`: the entry configured under `name`, if any. */
  function Lookup(name: string): (r: Option<ModuleSpec>)
    ensures r.Some? <==> name in ModuleNames()
    ensures r.Some? ==> r.value in Modules && r.value.name == name
  {
    LookupIn(Modules, name)
  }

  function LookupIn(ms: seq<ModuleSpec>, name: string): (r: Option<ModuleSpec>)
    ensures r.Some? <==> exists i :: 0 <= i < |ms| && ms[i].name == name
    ensures r.Some? ==> r.value in ms && r.value.name == name
  {
    if ms == [] then None
    else if ms[0].name == name then Some(ms[0])
    else
      var r := LookupIn(ms[1..], name);
      assert r.Some? ==> r.value in ms;
      assert forall i :: 1 <= i < |ms| ==> ms[i] == ms[1..][i - 1];
      r
  }

  /** Sixteen modules, no name configured twice. */
  lemma ModulesWellFormed()
    ensures |Modules| == TotalModules && Distinct(NamesOf(Modules))
  {
    var names := ModuleNames();
  }

  /** Looking up the i-th configured name yields the i-th entry. */
  lemma LookupModule(i: nat)
    requires i < |Modules|
    ensures Lookup(Modules[i].name) == Some(Modules[i])
  {
    var r := Lookup(Modules[i].name);
    var k :| 0 <= k < |Modules| && Modules[k] == r.value;
    assert ModuleNames()[k] == ModuleNames()[i];
  }

  /** A list without repetitions has as many elements as its set. */
  lemma {:induction false} DistinctCard<T>(s: seq<T>)
    requires Distinct(s)
    ensures |set x | x in s| == |s|
  {
    if s != [] {
      var t := s[..|s| - 1];
      DistinctCard(t);
      assert (set x | x in s) == (set x | x in t) + {s[|s| - 1]};
    }
  }

  /** Two lists without repetitions that hold the same elements have the same length. */
  lemma DistinctSameLength<T>(a: seq<T>, b: seq<T>)
    requires Distinct(a) && Distinct(b)
    requires forall x :: x in a <==> x in b
    ensures |a| == |b|
  {
    DistinctCard(a);
    DistinctCard(b);
    assert (set x | x in a) == (set x | x in b);
  }

  lemma DistinctAppend<T>(a: seq<T>, b: seq<T>)
    requires Distinct(a) && Distinct(b)
    requires forall x :: x in b ==> x !in a
    ensures Distinct(a + b)
  {
    forall i, j | 0 <= i < j < |a + b|
      ensures (a + b)[i] != (a + b)[j]
    {
      if j >= |a| && i < |a| {
        assert (a + b)[j] in b;
      }
    }
  }
}
