/** Named metrics (statistic/definition.go) and their wire record
    (statistic/dto.go). A `Statistic` is anything with a name, a value and
    a description; the two implementations the toolkit builds are the
    order provider's `SimpleStatistic` and the proxy that wraps a decoded
    `StatisticDTO`. */
module Statistic {
  import opened Base

  /** The wire record. `Descriprion` keeps the source's spelling. */
  datatype StatisticDTO = StatisticDTO(Name: string, Value: string, Descriprion: string)

  datatype Statistic =
    | SimpleStatistic(N: string, V: string, Desc: string)
    | StatisticProxy(dto: StatisticDTO)
  {
    function Name(): string
    {
      match this
      case SimpleStatistic(n, _, _) => n
      case StatisticProxy(d) => d.Name
    }

    function Value(): string
    {
      match this
      case SimpleStatistic(_, v, _) => v
      case StatisticProxy(d) => d.Value
    }

    function Description(): string
    {
      match this
      case SimpleStatistic(_, _, desc) => desc
      case StatisticProxy(d) => d.Descriprion
    }
  }

  /** `SimpleStatistic.Error()`: a simple statistic never carries an error. */
  function SimpleStatisticError(s: Statistic): (e: Option<Error>)
    requires s.SimpleStatistic?
    ensures e.None?
  {
    None
  }

  /** `convert`: copy the three accessors into a DTO; nil is an error. */
  function Convert(s: Option<Statistic>): (r: Result<StatisticDTO, Error>)
    ensures r.Failure? <==> s.None?
    ensures r.Failure? ==> r.error == Error("given Statistic is nil")
    ensures r.Success? ==>
      r.value.Name == s.value.Name() && r.value.Value == s.value.Value() &&
      r.value.Descriprion == s.value.Description()
  {
    match s
    case None => Failure(Error("given Statistic is nil"))
    case Some(st) => Success(StatisticDTO(st.Name(), st.Value(), st.Description()))
  }

  /** `StatisticDTO.convert`: a statistic whose accessors read the DTO. */
  function ToStatistic(dto: StatisticDTO): (s: Statistic)
    ensures s.Name() == dto.Name && s.Value() == dto.Value && s.Description() == dto.Descriprion
  {
    StatisticProxy(dto)
  }

  /** Converting the proxy of a DTO back gives the DTO, with no error. */
  lemma DtoRoundTrip(dto: StatisticDTO)
    ensures Convert(Some(ToStatistic(dto))) == Success(dto)
  {
  }

  /** Converting a statistic and proxying the DTO keeps what the
      statistic says about itself. */
  lemma StatisticRoundTrip(s: Statistic)
    ensures var t := ToStatistic(Convert(Some(s)).value);
            t.Name() == s.Name() && t.Value() == s.Value() && t.Description() == s.Description()
  {
  }
}
