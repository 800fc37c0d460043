/** The app's two record types: transcript entries and glossary terms. */
module Models {

  /**
   * One line of the bilingual transcript. The Japanese and English texts,
   * the language the speech was detected in, and when the entry was made
   * (a `Date`, here a whole number of time units).
   */
  datatype ConversationEntry = ConversationEntry(
    jp: string,
    en: string,
    detectedLanguage: string,
    timestamp: int)

  /** A user-defined translation of a term; `id` stands for the item's UUID. */
  datatype GlossaryItem = GlossaryItem(
    id: nat,
    source: string,
    target: string,
    updatedAt: int)
}
