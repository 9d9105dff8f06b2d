/**
 * Client configuration: the API base URL chosen from the page's host name, the
 * income and expense category tables, the month names and the category lookup
 * with its fallback.
 */
module Config {
  import opened Text

  const LOCAL_API_URL := "http://localhost:3000/api"
  const REMOTE_API_URL := "https://e-corisfin-api.onrender.com/api"

  predicate IsLocalhost(hostname: string) {
    hostname == "localhost" || hostname == "127.0.0.1"
  }

  /** `API_URL` for a page served from `hostname`. */
  function ApiUrl(hostname: string): (url: string)
    ensures url == LOCAL_API_URL <==> IsLocalhost(hostname)
    ensures url == REMOTE_API_URL <==> !IsLocalhost(hostname)
    ensures EndsWith(url, "/api")
  {
    if IsLocalhost(hostname) then LOCAL_API_URL else REMOTE_API_URL
  }

  datatype CategoryInfo = CategoryInfo(name: string, icon: string, color: string)

  const INCOME_CATEGORIES: map<string, CategoryInfo> := map[
    "salary" := CategoryInfo("Salaire", "💼", "#4ADE80"),
    "freelance" := CategoryInfo("Freelance", "💻", "#2DD4BF"),
    "investments" := CategoryInfo("Investissements", "📈", "#00D9FF"),
    "gifts" := CategoryInfo("Cadeaux", "🎁", "#F472B6"),
    "refunds" := CategoryInfo("Remboursements", "↩️", "#A78BFA"),
    "other_income" := CategoryInfo("Autres revenus", "💰", "#60A5FA")
  ]

  const EXPENSE_CATEGORIES: map<string, CategoryInfo> := map[
    "food" := CategoryInfo("Alimentation", "🛒", "#FF6B6B"),
    "transport" := CategoryInfo("Transport", "🚗", "#FF9F43"),
    "housing" := CategoryInfo("Logement", "🏠", "#FBBF24"),
    "health" := CategoryInfo("Santé", "❤️", "#F472B6"),
    "leisure" := CategoryInfo("Loisirs", "🎬", "#A78BFA"),
    "shopping" := CategoryInfo("Shopping", "🛍️", "#7B2DFF"),
    "bills" := CategoryInfo("Factures", "📄", "#60A5FA"),
    "education" := CategoryInfo("Éducation", "📚", "#2DD4BF"),
    "savings" := CategoryInfo("Épargne", "🐷", "#4ADE80"),
    "other_expense" := CategoryInfo("Autres dépenses", "📦", "#888")
  ]

  const MONTHS: seq<string> := [
    "Janvier", "Février", "Mars", "Avril", "Mai", "Juin",
    "Juillet", "Août", "Septembre", "Octobre", "Novembre", "Décembre"
  ]

  /** The table a transaction type selects: income for `'income'`, expense for anything else. */
  function TableFor(kind: string): (t: map<string, CategoryInfo>)
    ensures t == INCOME_CATEGORIES <==> kind == "income"
  {
    assert "salary" !in EXPENSE_CATEGORIES;
    if kind == "income" then INCOME_CATEGORIES else EXPENSE_CATEGORIES
  }

  /** `getCategoryInfo(category, type)`; the empty text stands for a falsy category. */
  function GetCategoryInfo(category: string, kind: string): (info: CategoryInfo)
    ensures category in TableFor(kind) ==> info == TableFor(kind)[category]
    ensures category !in TableFor(kind) ==>
      info == CategoryInfo(if category == "" then "Autre" else category, "📦", "#888")
  {
    var cats := TableFor(kind);
    if category in cats then cats[category] else CategoryInfo(if category == "" then "Autre" else category, "📦", "#888")
  }

  /** No category key is both an income and an expense key, and there are twelve months. */
  lemma TablesDisjoint()
    ensures INCOME_CATEGORIES.Keys !! EXPENSE_CATEGORIES.Keys
    ensures |MONTHS| == 12
  {
    FirstIncomeKeysNotExpenses();
    LastIncomeKeysNotExpenses();
    assert INCOME_CATEGORIES.Keys == {"salary", "freelance", "investments", "gifts", "refunds", "other_income"};
  }

  lemma FirstIncomeKeysNotExpenses()
    ensures "salary" !in EXPENSE_CATEGORIES && "freelance" !in EXPENSE_CATEGORIES && "investments" !in EXPENSE_CATEGORIES
  {
  }

  lemma LastIncomeKeysNotExpenses()
    ensures "gifts" !in EXPENSE_CATEGORIES && "refunds" !in EXPENSE_CATEGORIES && "other_income" !in EXPENSE_CATEGORIES
  {
  }

  /** An income key looked up as an expense falls back to the default, labelled with the key. */
  lemma TypeSelectsTable(category: string)
    requires category in INCOME_CATEGORIES
    ensures GetCategoryInfo(category, "income") == INCOME_CATEGORIES[category]
    ensures GetCategoryInfo(category, "expense") == CategoryInfo(category, "📦", "#888")
  {
    TablesDisjoint();
  }

  /** The fallback looks exactly like the "other expense" entry except for its label. */
  lemma FallbackMatchesOtherExpense(category: string, kind: string)
    requires category !in TableFor(kind)
    ensures GetCategoryInfo(category, kind).icon == EXPENSE_CATEGORIES["other_expense"].icon
    ensures GetCategoryInfo(category, kind).color == EXPENSE_CATEGORIES["other_expense"].color
  {
  }
}
