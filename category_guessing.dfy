/** config.Guesser and its one implementation, noGuessing. */
module CategoryGuessing {
  import Config

  /** The guessers there are: noGuessing, which always answers the default category. */
  datatype Guesser = NoGuessing

  /** Guess(basename): the category the guesser proposes for an entry. */
  method Guess(guesser: Guesser, config: Config.SafeConfig, basename: string) returns (category: string)
    ensures category == config.v.defaultCategory
  {
    match guesser
    case NoGuessing =>
      var conf := config.Get();
      category := conf.defaultCategory;
  }

  /** The guess depends on the configuration only, not on the basename. */
  method GuessIgnoresBasename(guesser: Guesser, config: Config.SafeConfig, a: string, b: string)
    returns (ga: string, gb: string)
    ensures ga == gb
  {
    ga := Guess(guesser, config, a);
    gb := Guess(guesser, config, b);
  }

  /** Before any Config.Set the guess is the empty string. */
  method GuessBeforeAnySet(guesser: Guesser, basename: string) returns (category: string)
    ensures category == ""
  {
    var config := new Config.SafeConfig();
    category := Guess(guesser, config, basename);
  }
}
