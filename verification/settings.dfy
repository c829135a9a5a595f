/**
 * The persisted settings object. Saving it is left to the host.
 */
module Settings {
  /** The user's names for the five mechanics and the separator put between them. */
  datatype Labels = Labels(dynamo: string, chariot: string, beam: string, dive: string,
                           meteorStream: string, separator: string)

  class Configuration {
    var version: int
    var enabled: bool
    var characterName: string
    var textDisplayDurationSeconds: int
    var dynamo: string
    var chariot: string
    var beam: string
    var dive: string
    var meteorStream: string
    var separator: string

    /** A fresh configuration: enabled, with the declared defaults. The label
        defaults are not part of this model and are passed in. */
    constructor (labels: Labels)
      ensures version == 0 && enabled
      ensures characterName == "Nael deus Darnus" && textDisplayDurationSeconds == 4
      ensures LabelValues() == labels
    {
      version := 0;
      enabled := true;
      characterName := "Nael deus Darnus";
      textDisplayDurationSeconds := 4;
      dynamo, chariot, beam, dive := labels.dynamo, labels.chariot, labels.beam, labels.dive;
      meteorStream, separator := labels.meteorStream, labels.separator;
    }

    /** The six label fields as one value. */
    function LabelValues(): Labels
      reads this
    {
      Labels(dynamo, chariot, beam, dive, meteorStream, separator)
    }
  }
}
