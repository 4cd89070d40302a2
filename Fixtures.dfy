/** The sample job listings the application starts with (constants.tsx). */
module Fixtures {
  import opened Types

  /** The four sample jobs. Their creation time is the clock reading at
      start-up, so it is a parameter here. */
  function MockJobs(now: string): (jobs: seq<Job>)
    ensures |jobs| == 4 && UniqueIds(jobs)
    ensures forall j :: j in jobs ==> j.createdAt == now && j.status == None
  {
    [ Job("1", "Repositor de Estoque", "Mercado do Bairro", Market, "R$ 1.450,00", Morning, 0.5,
          Location(-23.5505, -46.6333, "Rua das Flores, 123"),
          "Organização de prateleiras e controle de validade.",
          ["Agilidade", "Morar perto"], now, None),
      Job("2", "Atendente de Balcão", "Padaria Pão de Mel", Bakery, "R$ 1.600,00", Afternoon, 1.2,
          Location(-23.5520, -46.6350, "Av. Paulista, 456"),
          "Atendimento ao cliente e preparo de lanches rápidos.",
          ["Boa comunicação", "Higiene"], now, None),
      Job("3", "Auxiliar de Cozinha", "Restaurante Sabor Local", Restaurant, "R$ 1.800,00", Night, 2.5,
          Location(-23.5480, -46.6300, "Rua Augusta, 789"),
          "Auxílio no preparo de pratos e limpeza da cozinha.",
          ["Disponibilidade noturna", "Trabalho em equipe"], now, None),
      Job("4", "Operador de Caixa", "Farmácia Saúde Total", Pharmacy, "R$ 1.550,00", Flexible, 0.8,
          Location(-23.5510, -46.6320, "Rua São Bento, 101"),
          "Operação de caixa e organização de perfumaria.",
          ["Conhecimento básico de informática"], now, None) ]
  }
}
