/** The toast helpers: the options record each helper hands to
    `Toast.show`. The shorthands fall back with `||`, so a missing or empty
    title and a missing or zero duration take the default; `show` falls back
    with destructuring defaults, which only replace a missing value. */
module Toast {
  import opened Wrappers

  datatype ToastType = Success | Error | Info

  /** The options of `success`, `error` and `info`. */
  datatype ShortOptions = ShortOptions(title: Option<string>, duration: Option<int>)

  /** The options of `show`. */
  datatype ShowOptions = ShowOptions(kind: Option<ToastType>, title: Option<string>, message: string, duration: Option<int>)

  /** The record passed to `Toast.show`. */
  datatype Shown = Shown(kind: ToastType, text1: string, text2: string, visibilityTime: int, topOffset: int)

  const TopOffset: int := 50

  function DefaultTitle(kind: ToastType): string
  {
    match kind
    case Success => "Sucesso"
    case Error => "Erro"
    case Info => "Informação"
  }

  function ShorthandDuration(kind: ToastType): int
  {
    if kind == Error then 4000 else 3000
  }

  /** `options?.title || fallback`. */
  function TitleOr(title: Option<string>, fallback: string): string
  {
    if title.Some? && title.value != "" then title.value else fallback
  }

  /** `options?.duration || fallback`. */
  function DurationOr(duration: Option<int>, fallback: int): int
  {
    if duration.Some? && duration.value != 0 then duration.value else fallback
  }

  /** `toast.success`, `toast.error` and `toast.info`. */
  function Shorthand(kind: ToastType, message: string, options: Option<ShortOptions>): Shown
  {
    var title := if options.Some? then options.value.title else None;
    var duration := if options.Some? then options.value.duration else None;
    Shown(kind, TitleOr(title, DefaultTitle(kind)), message, DurationOr(duration, ShorthandDuration(kind)), TopOffset)
  }

  /** `toast.show`. */
  function Show(options: ShowOptions): Shown
  {
    var kind := options.kind.GetOr(Info);
    Shown(kind, TitleOr(options.title, DefaultTitle(kind)), options.message, options.duration.GetOr(3000), TopOffset)
  }

  /** Every helper passes the message through as `text2` and uses a top
      offset of 50; a shorthand's title is the given one unless it is
      missing or empty, and its duration the given one unless missing or 0. */
  lemma ShorthandDefaults(kind: ToastType, message: string, options: Option<ShortOptions>)
    ensures Shorthand(kind, message, options).kind == kind
    ensures Shorthand(kind, message, options).text2 == message && Shorthand(kind, message, options).topOffset == 50
    ensures Shorthand(kind, message, options).text1 ==
      (if options.Some? && options.value.title.Some? && options.value.title.value != "" then options.value.title.value
       else DefaultTitle(kind))
    ensures Shorthand(kind, message, options).visibilityTime ==
      (if options.Some? && options.value.duration.Some? && options.value.duration.value != 0 then options.value.duration.value
       else ShorthandDuration(kind))
    ensures Shorthand(Error, message, None).visibilityTime == 4000
    ensures Shorthand(Success, message, None).text1 == "Sucesso" && Shorthand(Info, message, None).text1 == "Informação"
  {
  }

  /** `show` defaults the type to info and the title by type, keeps an
      explicit duration, 0 included, and passes the message through. */
  lemma ShowDefaults(options: ShowOptions)
    ensures Show(options).kind == options.kind.GetOr(Info)
    ensures Show(options).text2 == options.message && Show(options).topOffset == 50
    ensures options.title.None? || options.title == Some("") ==> Show(options).text1 == DefaultTitle(Show(options).kind)
    ensures options.duration.Some? ==> Show(options).visibilityTime == options.duration.value
    ensures options.duration.None? ==> Show(options).visibilityTime == 3000
  {
  }

  /** `show` and the shorthand of the same type agree whenever a non-zero
      duration is given; they part ways on a zero duration, which `show`
      keeps, and on a missing duration for errors, where `show` uses 3000
      and `error` 4000. */
  lemma ShowMatchesShorthand(kind: ToastType, message: string, title: Option<string>, duration: Option<int>)
    ensures duration.Some? && duration.value != 0 ==>
      Show(ShowOptions(Some(kind), title, message, duration)) == Shorthand(kind, message, Some(ShortOptions(title, duration)))
    ensures duration == Some(0) ==>
      Show(ShowOptions(Some(kind), title, message, duration)).visibilityTime == 0 &&
      Shorthand(kind, message, Some(ShortOptions(title, duration))).visibilityTime == ShorthandDuration(kind)
    ensures duration.None? ==>
      (Show(ShowOptions(Some(kind), title, message, duration)) == Shorthand(kind, message, Some(ShortOptions(title, duration)))
       <==> kind != Error)
  {
  }
}
